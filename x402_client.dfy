// The paying side of the x402 protocol (src/x402/client.py): reading a payment
// requirement, the checks a hire must pass, and the state a hire leaves behind
// (its status, the daily counters, the bounded hire history). The HTTP exchange and
// the EIP-712 signature are inputs: what the first request answered, whether
// signing succeeded, and what the paid request returned.
module X402Client {
  import opened Py
  import opened Json
  import opened Numerals

  /** USDC on Base, the default token of a requirement. */
  const UsdcBase: string := "0x833589fCD6eDb6E08f4c7C32D4f71b54bdA02913"

  /** USDC has six decimals: one dollar is a million units. */
  const UnitsPerUsd: int := 1000000

  const MaxHireHistory: nat := 1000

  const DaySeconds: int := 86400

  /** A payment requirement; `amount` is in USDC units. */
  datatype PaymentRequirement = PaymentRequirement(
    recipient: string,
    amount: int,
    token: string,
    network: string,
    validUntil: int,
    nonce: string,
    description: Option<string>)

  /** `amount_usd`: the amount in dollars. */
  function AmountUsd(p: PaymentRequirement): (usd: real)
    ensures usd * UnitsPerUsd as real == p.amount as real
    ensures p.amount >= 0 ==> usd >= 0.0
  {
    p.amount as real / UnitsPerUsd as real
  }

  predicate HasText(d: seq<(string, Value)>, k: string) { Get(d, k).Some? && Get(d, k).value.JStr? }
  predicate HasNumber(d: seq<(string, Value)>, k: string) { Get(d, k).Some? && Get(d, k).value.JNum? }

  /** A field that must be text. */
  function TextOf(r: Result<Value>): (t: Result<string>)
    ensures t.Ok? <==> r.Ok? && r.value.JStr?
    ensures t.Ok? ==> t.value == r.value.s
  {
    if r.Err? then Err(r.error)
    else if r.value.JStr? then Ok(r.value.s)
    else Err("TypeError: expected a string")
  }

  /** A field read with `int(...)`. */
  function IntOf(r: Result<Value>): (i: Result<int>)
    ensures r.Ok? && r.value.JNum? ==> i == Ok(TruncateTowardZero(r.value.n))
    ensures r.Err? ==> i.Err?
  {
    if r.Err? then Err(r.error) else ToInt(r.value)
  }

  /** `payment.get("description")`: absent or null is None. */
  function OptionalTextOf(r: Result<Value>): (t: Result<Option<string>>)
    ensures r.Ok? && r.value.JNull? ==> t == Ok(None)
    ensures r.Ok? && r.value.JStr? ==> t == Ok(Some(r.value.s))
  {
    if r.Err? then Err(r.error)
    else if r.value.JNull? then Ok(None)
    else if r.value.JStr? then Ok(Some(r.value.s))
    else Err("TypeError: expected a string")
  }

  /**
   * The fields of a requirement object, in the order the source reads them. Missing
   * `recipient` or `amount` raise; the others default: USDC on Base, a validity of five
   * minutes from `now`, a fresh nonce and no description.
   */
  function FromFields(p: Value, now: int, freshNonce: string): (r: Result<PaymentRequirement>)
    ensures r.Ok? ==> p.JObj? && Get(p.fields, "recipient").Some? && Get(p.fields, "amount").Some?
    ensures r.Ok? ==> Get(p.fields, "recipient").value.JStr?
                      && r.value.recipient == Get(p.fields, "recipient").value.s
    ensures r.Ok? && Get(p.fields, "amount").value.JNum?
            ==> r.value.amount == TruncateTowardZero(Get(p.fields, "amount").value.n)
    ensures r.Ok? && Get(p.fields, "token").None? ==> r.value.token == UsdcBase
    ensures r.Ok? && Get(p.fields, "network").None? ==> r.value.network == "base"
    ensures r.Ok? && Get(p.fields, "validUntil").None? ==> r.value.validUntil == now + 300
    ensures r.Ok? && Get(p.fields, "nonce").None? ==> r.value.nonce == freshNonce
    ensures r.Ok? && Get(p.fields, "description").None? ==> r.value.description.None?
    ensures r.Ok? && Get(p.fields, "token").Some? ==> Get(p.fields, "token") == Some(JStr(r.value.token))
    ensures r.Ok? && Get(p.fields, "network").Some? ==> Get(p.fields, "network") == Some(JStr(r.value.network))
    ensures r.Ok? && Get(p.fields, "nonce").Some? ==> Get(p.fields, "nonce") == Some(JStr(r.value.nonce))
    ensures r.Ok? && Get(p.fields, "validUntil").Some? && Get(p.fields, "validUntil").value.JNum?
            ==> r.value.validUntil == TruncateTowardZero(Get(p.fields, "validUntil").value.n)
    ensures r.Ok? && Get(p.fields, "description").Some? && Get(p.fields, "description").value.JStr?
            ==> r.value.description == Some(Get(p.fields, "description").value.s)
    ensures p.JObj? && HasText(p.fields, "recipient") && HasNumber(p.fields, "amount")
            && (Get(p.fields, "token").None? || HasText(p.fields, "token"))
            && (Get(p.fields, "network").None? || HasText(p.fields, "network"))
            && (Get(p.fields, "validUntil").None? || HasNumber(p.fields, "validUntil"))
            && (Get(p.fields, "nonce").None? || HasText(p.fields, "nonce"))
            && (Get(p.fields, "description").None? || HasText(p.fields, "description")
                || Get(p.fields, "description").value.JNull?)
            ==> r.Ok?
  {
    var recipient := TextOf(Index(p, "recipient"));
    var amount := IntOf(Index(p, "amount"));
    var token := TextOf(GetKey(p, "token", JStr(UsdcBase)));
    var network := TextOf(GetKey(p, "network", JStr("base")));
    var validUntil := IntOf(GetKey(p, "validUntil", JNum((now + 300) as real)));
    var nonce := TextOf(GetKey(p, "nonce", JStr(freshNonce)));
    var description := OptionalTextOf(GetKey(p, "description", JNull));
    if recipient.Err? then Err(recipient.error)
    else if amount.Err? then Err(amount.error)
    else if token.Err? then Err(token.error)
    else if network.Err? then Err(network.error)
    else if validUntil.Err? then Err(validUntil.error)
    else if nonce.Err? then Err(nonce.error)
    else if description.Err? then Err(description.error)
    else Ok(PaymentRequirement(recipient.value, amount.value, token.value, network.value,
                               validUntil.value, nonce.value, description.value))
  }

  /** `from_json`: the nested "payment" object when there is one, else the body itself. */
  function FromJson(data: Value, now: int, freshNonce: string): (r: Result<PaymentRequirement>)
    ensures !data.JObj? ==> r.Err?
    ensures data.JObj? && Get(data.fields, "payment").Some?
            ==> r == FromFields(Get(data.fields, "payment").value, now, freshNonce)
    ensures data.JObj? && Get(data.fields, "payment").None? ==> r == FromFields(data, now, freshNonce)
  {
    var payment := GetKey(data, "payment", data);
    if payment.Err? then Err(payment.error) else FromFields(payment.value, now, freshNonce)
  }

  // ---------------------------------------------------------------------------
  // Hires

  /** Why a hire did not complete. */
  datatype HireError =
    | Disabled
    | NoSigningKey
    | OverHireLimit(requested: real, hireLimit: real)
    | DailyLimitReached(dailyLimit: int)
    | Untrusted(url: string)
    | PriceTooHigh(required: real, offered: real)
    | SigningFailed
    | Transport(message: string)

  datatype AgentHire = AgentHire(
    id: string,
    serviceUrl: string,
    task: string,
    maxPayment: real,
    actualPayment: Option<real>,
    status: string,
    result: Option<Value>,
    error: Option<HireError>,
    createdAt: int,
    completedAt: Option<int>)

  /** What the first, unpaid request answered. */
  datatype FirstReply =
    | Free                                  // 200: no payment needed
    | Requires(req: PaymentRequirement)     // 402 with a readable requirement
    | RequestFailed(message: string)        // any other status, or an unreadable requirement

  predicate TrustedUrl(url: string, trusted: set<string>) {
    exists t :: t in trusted && StartsWith(url, t)
  }

  /**
   * `_validate_hire`: the first check that fails, in the source's order. `dailyHires` is
   * the counter after the daily reset, which runs only once the first two checks passed.
   */
  function Refusal(enabled: bool, hasKey: bool, maxHire: real, maxDaily: int, trusted: set<string>,
                   dailyHires: int, maxPayment: real, url: string, trustOverride: bool): (r: Option<HireError>)
    ensures r.None? <==> enabled && hasKey && maxPayment <= maxHire && dailyHires < maxDaily
                         && (trustOverride || trusted == {} || TrustedUrl(url, trusted))
    ensures r == Some(Disabled) <==> !enabled
    ensures r == Some(NoSigningKey) <==> enabled && !hasKey
    ensures r.Some? && r.value.OverHireLimit? <==> enabled && hasKey && maxPayment > maxHire
    ensures r.Some? && r.value.DailyLimitReached?
            <==> enabled && hasKey && maxPayment <= maxHire && dailyHires >= maxDaily
  {
    if !enabled then Some(Disabled)
    else if !hasKey then Some(NoSigningKey)
    else if maxPayment > maxHire then Some(OverHireLimit(maxPayment, maxHire))
    else if dailyHires >= maxDaily then Some(DailyLimitReached(maxDaily))
    else if !trustOverride && trusted != {} && !TrustedUrl(url, trusted) then Some(Untrusted(url))
    else None
  }

  /** The amount a hire pays, when it pays: a passed check, a requirement within `maxPayment`, a signature and a reply. */
  function Charged(refusal: Option<HireError>, first: FirstReply, signed: bool, paid: Result<Value>,
                   maxPayment: real): (c: Option<real>)
    ensures c.Some? ==> refusal.None? && first.Requires? && c.value == AmountUsd(first.req) && c.value <= maxPayment
  {
    if refusal.None? && first.Requires? && AmountUsd(first.req) <= maxPayment && signed && paid.Ok?
    then Some(AmountUsd(first.req)) else None
  }

  /** The record a hire ends with. */
  function Settle(id: string, url: string, task: string, maxPayment: real, createdAt: int,
                  refusal: Option<HireError>, first: FirstReply, signed: bool,
                  paid: Result<Value>, now: int): (r: AgentHire)
    ensures r.id == id && r.serviceUrl == url && r.task == task
    ensures r.maxPayment == maxPayment && r.createdAt == createdAt
    ensures r.status in {"completed", "rejected", "failed"}
    ensures r.status == "completed" <==> r.error.None?
    ensures r.status == "completed"
            <==> refusal.None? && (first.Free? || Charged(refusal, first, signed, paid, maxPayment).Some?)
    ensures r.status == "rejected"
            <==> refusal.None? && first.Requires? && AmountUsd(first.req) > maxPayment
    ensures refusal.Some? ==> r.error == refusal
    ensures r.actualPayment.Some? <==> r.status == "completed"
    ensures r.actualPayment.Some? && first.Requires? ==> r.actualPayment.value == AmountUsd(first.req)
    ensures first.Free? && refusal.None? ==> r.actualPayment == Some(0.0)
  {
    var hire := AgentHire(id, url, task, maxPayment, None, "pending", None, None, createdAt, None);
    if refusal.Some? then hire.(status := "failed", error := refusal)
    else match first
      case Free => hire.(status := "completed", actualPayment := Some(0.0), completedAt := Some(now))
      case RequestFailed(m) => hire.(status := "failed", error := Some(Transport(m)))
      case Requires(req) =>
        var required := AmountUsd(req);
        if required > hire.maxPayment then
          hire.(status := "rejected", error := Some(PriceTooHigh(required, hire.maxPayment)))
        else if !signed then hire.(status := "failed", error := Some(SigningFailed))
        else if paid.Err? then hire.(status := "failed", error := Some(Transport(paid.error)))
        else hire.(status := "completed", actualPayment := Some(required), result := Some(paid.value),
                   completedAt := Some(now))
  }

  function Created(h: AgentHire): int { h.createdAt }

  class X402Client {
    const enabled: bool
    const maxHire: real
    const maxDaily: int
    const trustedServices: set<string>
    /** The signing account's address, when a private key was loaded. */
    const signer: Option<string>
    var dailyHires: int
    var dailySpend: real
    var dailyReset: int
    var hires: seq<AgentHire>

    /** The counters: never negative, and never past the daily limit once a hire is paid. */
    ghost predicate Valid()
      reads this
    {
      0 <= dailyHires && (dailyHires == 0 || dailyHires <= maxDaily) && |hires| <= MaxHireHistory
    }

    constructor(enabled: bool, maxHire: real, maxDaily: int, trusted: seq<string>, signer: Option<string>, now: int)
      ensures Valid()
      ensures this.enabled == enabled && this.maxHire == maxHire && this.maxDaily == maxDaily
      ensures trustedServices == set t | t in trusted && this.signer == signer
      ensures dailyHires == 0 && dailySpend == 0.0 && dailyReset == now && hires == []
    {
      this.enabled := enabled;
      this.maxHire := maxHire;
      this.maxDaily := maxDaily;
      trustedServices := set t | t in trusted;
      this.signer := signer;
      dailyHires := 0;
      dailySpend := 0.0;
      dailyReset := now;
      hires := [];
    }

    /** `_check_daily_reset`: both counters restart after more than 24 hours. */
    method CheckDailyReset(now: int)
      requires Valid()
      modifies this
      ensures Valid()
      ensures var expired := now - old(dailyReset) > DaySeconds;
        && dailyHires == (if expired then 0 else old(dailyHires))
        && dailySpend == (if expired then 0.0 else old(dailySpend))
        && dailyReset == (if expired then now else old(dailyReset))
      ensures hires == old(hires)
    {
      if now - dailyReset > DaySeconds {
        dailyHires := 0;
        dailySpend := 0.0;
        dailyReset := now;
      }
    }

    /** `_validate_hire`; the daily reset happens only past the first two checks. */
    method ValidateHire(maxPayment: real, url: string, trustOverride: bool, now: int)
      returns (refusal: Option<HireError>)
      requires Valid()
      modifies this
      ensures Valid()
      ensures var reset := enabled && signer.Some? && now - old(dailyReset) > DaySeconds;
        && dailyHires == (if reset then 0 else old(dailyHires))
        && dailySpend == (if reset then 0.0 else old(dailySpend))
        && dailyReset == (if reset then now else old(dailyReset))
      ensures refusal == Refusal(enabled, signer.Some?, maxHire, maxDaily, trustedServices, dailyHires,
                                 maxPayment, url, trustOverride)
      ensures hires == old(hires)
    {
      if !enabled {
        return Some(Disabled);
      }
      if signer.None? {
        return Some(NoSigningKey);
      }
      CheckDailyReset(now);
      if maxPayment > maxHire {
        return Some(OverHireLimit(maxPayment, maxHire));
      }
      if dailyHires >= maxDaily {
        return Some(DailyLimitReached(maxDaily));
      }
      if !trustOverride && trustedServices != {} && !TrustedUrl(url, trustedServices) {
        return Some(Untrusted(url));
      }
      refusal := None;
    }

    /**
     * `hire_agent`. Every call records exactly one hire; only a paid hire moves the daily
     * counters, by one hire and by the amount the service required. `now` stamps the hire
     * and drives the daily reset; `doneAt` is the clock reading taken after the HTTP calls,
     * which a completed hire carries as its completion time.
     */
    method HireAgent(url: string, task: string, maxPayment: real, trustOverride: bool, id: string, now: int,
                     first: FirstReply, signed: bool, paid: Result<Value>, doneAt: int)
      returns (hire: AgentHire)
      requires Valid()
      modifies this
      ensures Valid()
      ensures var reset := enabled && signer.Some? && now - old(dailyReset) > DaySeconds;
        var hires0 := if reset then 0 else old(dailyHires);
        var spend0 := if reset then 0.0 else old(dailySpend);
        var refusal := Refusal(enabled, signer.Some?, maxHire, maxDaily, trustedServices, hires0,
                               maxPayment, url, trustOverride);
        var charged := Charged(refusal, first, signed, paid, maxPayment);
        && hire == Settle(id, url, task, maxPayment, now, refusal, first, signed, paid, doneAt)
        && hires == AppendCapped(old(hires), hire, MaxHireHistory)
        && dailyReset == (if reset then now else old(dailyReset))
        && dailyHires == hires0 + (if charged.Some? then 1 else 0)
        && dailySpend == spend0 + (if charged.Some? then charged.value else 0.0)
    {
      var refusal := ValidateHire(maxPayment, url, trustOverride, now);
      hire := Settle(id, url, task, maxPayment, now, refusal, first, signed, paid, doneAt);
      if refusal.None? && first.Requires? && AmountUsd(first.req) <= maxPayment && signed && paid.Ok? {
        dailyHires := dailyHires + 1;
        dailySpend := dailySpend + AmountUsd(first.req);
      }
      RecordHire(hire);
    }

    /** `_record_hire`: append, keeping the last 1000. */
    method RecordHire(hire: AgentHire)
      requires Valid()
      modifies this
      ensures Valid()
      ensures hires == AppendCapped(old(hires), hire, MaxHireHistory)
      ensures dailyHires == old(dailyHires) && dailySpend == old(dailySpend) && dailyReset == old(dailyReset)
    {
      hires := AppendCapped(hires, hire, MaxHireHistory);
    }

    /** `get_hire_history(limit)`: newest first, at most `limit` entries. */
    function HireHistory(limit: int): (r: seq<AgentHire>)
      reads this
      ensures limit >= 0 ==> |r| == Min(limit, |hires|)
      ensures NewestFirst(r, Created)
      ensures multiset(r) <= multiset(hires)
      ensures r == UpTo(SortNewestFirst(hires, Created), limit)
      ensures forall x, y :: x in hires && x !in r && y in r ==> x.createdAt <= y.createdAt
    {
      NewestFirstTop(hires, Created, limit);
      UpTo(SortNewestFirst(hires, Created), limit)
    }

    /** `get_daily_stats`: the counters after the reset check. */
    method DailyStats(now: int) returns (hiresToday: int, hiresLimit: int, spendToday: real, maxPerHire: real,
                                          signingAvailable: bool, signerAddress: Option<string>)
      requires Valid()
      modifies this
      ensures Valid()
      ensures hiresToday == (if now - old(dailyReset) > DaySeconds then 0 else old(dailyHires))
      ensures spendToday == (if now - old(dailyReset) > DaySeconds then 0.0 else old(dailySpend))
      ensures hiresLimit == maxDaily && maxPerHire == maxHire
      ensures signingAvailable <==> signer.Some?
      ensures signerAddress == signer
      ensures var expired := now - old(dailyReset) > DaySeconds;
        && dailyHires == hiresToday && dailySpend == spendToday
        && dailyReset == (if expired then now else old(dailyReset))
      ensures hires == old(hires)
    {
      CheckDailyReset(now);
      return dailyHires, maxDaily, dailySpend, maxHire, signer.Some?, signer;
    }
  }

  /** A refused hire is failed, pays nothing and leaves the counters alone. */
  lemma RefusedHireFails(id: string, url: string, task: string, maxPayment: real, refusal: Option<HireError>,
                         first: FirstReply, signed: bool, paid: Result<Value>, now: int)
    requires refusal.Some?
    ensures Settle(id, url, task, maxPayment, now, refusal, first, signed, paid, now).status == "failed"
    ensures Charged(refusal, first, signed, paid, maxPayment).None?
  {
  }

  /**
   * A hire that pays never pays more than the caller's maximum, and that maximum never
   * exceeds the configured per-hire limit.
   */
  lemma PaidWithinLimits(enabled: bool, hasKey: bool, maxHire: real, maxDaily: int, trusted: set<string>,
                         dailyHires: int, maxPayment: real, url: string, trustOverride: bool,
                         first: FirstReply, signed: bool, paid: Result<Value>)
    requires Charged(Refusal(enabled, hasKey, maxHire, maxDaily, trusted, dailyHires, maxPayment, url, trustOverride),
                     first, signed, paid, maxPayment).Some?
    ensures var c := Charged(Refusal(enabled, hasKey, maxHire, maxDaily, trusted, dailyHires, maxPayment, url,
                                     trustOverride), first, signed, paid, maxPayment);
      c.value <= maxPayment <= maxHire && dailyHires < maxDaily && enabled && hasKey
  {
  }

  /** The amounts of the requirements in the tests: 5000000 units is 5 dollars, 2500000 is 2.5. */
  lemma AmountExamples(p: PaymentRequirement)
    ensures p.amount == 5000000 ==> AmountUsd(p) == 5.0
    ensures p.amount == 2500000 ==> AmountUsd(p) == 2.5
  {
  }
}
