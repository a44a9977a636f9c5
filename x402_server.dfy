// The paid side of the x402 protocol (src/x402/server.py): the service registry,
// the HTTP 402 Payment Required answer (section 15.5.3 of RFC 9110) and its amount,
// the checks an `X-Payment` authorization must pass, and the revenue bookkeeping.
// Decoding the header (base64 and JSON) is an input: the decoded value, or nothing
// when it does not decode. Signature recovery is not performed by the source either.
module X402Server {
  import opened Py
  import opened Json
  import opened Numerals
  import X402Client

  const MaxPaymentRecords: nat := 10000

  const DaySeconds: int := 86400

  /** A registered service; the handler it runs is an input of each request. */
  datatype ServiceDefinition = ServiceDefinition(
    name: string,
    endpoint: string,
    description: string,
    priceUsd: real,
    requiresAuth: bool)

  datatype PaymentRecord = PaymentRecord(
    id: string,
    service: string,
    payer: Value,
    amountUsd: real,
    signature: Value,
    status: string,
    task: Option<string>,
    result: Option<Value>,
    createdAt: int)

  /** The description a registration falls back to. */
  function DescriptionOr(name: string, description: string): (d: string)
    ensures description != "" ==> d == description
    ensures description == "" ==> d == "QualiaIA " + name + " service"
  {
    if description == "" then "QualiaIA " + name + " service" else description
  }

  /** `int(price_usd * 10**6)`: the price in USDC units, truncated. */
  function RequiredUnits(price: real): (units: int)
    ensures price >= 0.0 ==> units as real <= price * X402Client.UnitsPerUsd as real < units as real + 1.0
  {
    TruncateTowardZero(price * X402Client.UnitsPerUsd as real)
  }

  /**
   * The amount the server asks for reads back, on the client, as the service's price,
   * whenever the price has at most six decimals.
   */
  lemma PriceRoundTrip(price: real, req: X402Client.PaymentRequirement)
    requires price >= 0.0
    requires (price * X402Client.UnitsPerUsd as real).Floor as real == price * X402Client.UnitsPerUsd as real
    requires req.amount == RequiredUnits(price)
    ensures X402Client.AmountUsd(req) == price
  {
    var scaled := price * X402Client.UnitsPerUsd as real;
    assert RequiredUnits(price) == scaled.Floor;
    assert X402Client.AmountUsd(req) * X402Client.UnitsPerUsd as real == scaled;
  }

  /** A price with more than six decimals is charged short: the truncation loses the remainder. */
  lemma SubUnitPriceTruncated(req: X402Client.PaymentRequirement)
    requires req.amount == RequiredUnits(0.0000015)
    ensures req.amount == 1 && X402Client.AmountUsd(req) == 0.000001
  {
  }

  /** The requirement the 402 answer carries, as its "payment" object. */
  function PaymentInfo(service: ServiceDefinition, recipient: string, now: int, nonce: string): (info: seq<(string, Value)>)
    ensures UniqueKeys(info)
    ensures Keys(info) == ["recipient", "amount", "token", "network", "validUntil", "nonce", "description", "service"]
  {
    [("recipient", JStr(recipient)),
     ("amount", JNum(RequiredUnits(service.priceUsd) as real)),
     ("token", JStr(X402Client.UsdcBase)),
     ("network", JStr("base")),
     ("validUntil", JNum((now + 300) as real)),
     ("nonce", JStr(nonce)),
     ("description", JStr(service.description)),
     ("service", JStr(service.name))]
  }

  /** `_create_402_response`'s body; the same object, encoded, is the `X-Payment-Required` header. */
  function PaymentRequiredBody(service: ServiceDefinition, recipient: string, now: int, nonce: string): Value {
    JObj([("error", JStr("Payment Required")), ("payment", JObj(PaymentInfo(service, recipient, now, nonce)))])
  }

  // ---------------------------------------------------------------------------
  // Verifying an authorization

  /**
   * The signature and the authorization fields of a decoded `X-Payment` payload, or None
   * when the payload cannot be used: it did not decode, it is not an object, the
   * signature or the authorization is missing or empty, or the authorization is not an
   * object.
   */
  function Envelope(payload: Option<Value>): (r: Option<(Value, seq<(string, Value)>)>)
    ensures r.Some? ==> Truthy(r.value.0) && r.value.1 != []
    ensures r.Some? ==>
      && payload.Some? && payload.value.JObj?
      && Get(payload.value.fields, "payload").Some? && Get(payload.value.fields, "payload").value.JObj?
      && var inner := Get(payload.value.fields, "payload").value.fields;
         Get(inner, "signature") == Some(r.value.0) && Get(inner, "authorization") == Some(JObj(r.value.1))
    ensures (&& payload.Some? && payload.value.JObj?
             && Get(payload.value.fields, "payload").Some? && Get(payload.value.fields, "payload").value.JObj?
             && var inner := Get(payload.value.fields, "payload").value.fields;
                && Get(inner, "signature").Some? && Truthy(Get(inner, "signature").value)
                && Get(inner, "authorization").Some? && Get(inner, "authorization").value.JObj?
                && Get(inner, "authorization").value.fields != [])
            ==> r.Some?
  {
    if payload.None? || !payload.value.JObj? then None
    else
      var inner := GetOr(payload.value.fields, "payload", JObj([]));
      if !inner.JObj? then None
      else
        var signature := GetOr(inner.fields, "signature", JNull);
        var authorization := GetOr(inner.fields, "authorization", JObj([]));
        if !Truthy(signature) || !Truthy(authorization) || !authorization.JObj? then None
        else Some((signature, authorization.fields))
  }

  function To(auth: seq<(string, Value)>): Value { GetOr(auth, "to", JStr("")) }
  function Paid(auth: seq<(string, Value)>): Result<int> { ToInt(GetOr(auth, "value", JNum(0.0))) }
  function ValidAfter(auth: seq<(string, Value)>): Result<int> { ToInt(GetOr(auth, "validAfter", JNum(0.0))) }
  function ValidBefore(auth: seq<(string, Value)>): Result<int> { ToInt(GetOr(auth, "validBefore", JNum(0.0))) }

  /**
   * The checks on an authorization, in order: the recipient (case-insensitively), the
   * amount (at least the price; more is accepted) and the validity window, whose
   * bounds are both inclusive. A value that does not convert rejects the payment.
   */
  function CheckAuthorization(signature: Value, auth: seq<(string, Value)>, service: ServiceDefinition,
                              recipient: string, now: int, id: string): (r: Option<PaymentRecord>)
    ensures r.Some? <==>
      && To(auth).JStr? && Lower(To(auth).s) == Lower(recipient)
      && Paid(auth).Ok? && Paid(auth).value >= RequiredUnits(service.priceUsd)
      && ValidAfter(auth).Ok? && ValidBefore(auth).Ok?
      && ValidAfter(auth).value <= now <= ValidBefore(auth).value
    ensures r.Some? ==> r.value.status == "verified" && r.value.service == service.name
    ensures r.Some? ==> r.value.amountUsd * X402Client.UnitsPerUsd as real == Paid(auth).value as real
    ensures r.Some? ==> r.value.payer == GetOr(auth, "from", JStr("unknown")) && r.value.signature == signature
  {
    var to := To(auth);
    if !to.JStr? || Lower(to.s) != Lower(recipient) then None
    else
      var paid := Paid(auth);
      if paid.Err? || paid.value < RequiredUnits(service.priceUsd) then None
      else
        var after, before := ValidAfter(auth), ValidBefore(auth);
        if after.Err? || before.Err? || now < after.value || now > before.value then None
        else Some(PaymentRecord(id, service.name, GetOr(auth, "from", JStr("unknown")),
                                paid.value as real / X402Client.UnitsPerUsd as real, signature,
                                "verified", None, None, now))
  }

  /** `_verify_payment`; every exception the source catches is a None here. */
  function VerifyPayment(payload: Option<Value>, service: ServiceDefinition, recipient: string,
                         now: int, id: string): (r: Option<PaymentRecord>)
    ensures Envelope(payload).None? ==> r.None?
    ensures Envelope(payload).Some? ==>
      r == CheckAuthorization(Envelope(payload).value.0, Envelope(payload).value.1, service, recipient, now, id)
  {
    match Envelope(payload)
    case None => None
    case Some((signature, auth)) => CheckAuthorization(signature, auth, service, recipient, now, id)
  }

  /** Paying more than the price is accepted, as long as the rest holds. */
  lemma OverpaymentAccepted(signature: Value, auth: seq<(string, Value)>, service: ServiceDefinition,
                            recipient: string, now: int, id: string)
    requires To(auth).JStr? && Lower(To(auth).s) == Lower(recipient)
    requires Paid(auth).Ok? && Paid(auth).value > RequiredUnits(service.priceUsd)
    requires ValidAfter(auth).Ok? && ValidBefore(auth).Ok?
    requires ValidAfter(auth).value <= now <= ValidBefore(auth).value
    ensures CheckAuthorization(signature, auth, service, recipient, now, id).Some?
  {
  }

  /** The window's two ends are both accepted; one second outside either is not. */
  lemma WindowIsInclusive(signature: Value, auth: seq<(string, Value)>, service: ServiceDefinition,
                          recipient: string, id: string)
    requires To(auth).JStr? && Lower(To(auth).s) == Lower(recipient)
    requires Paid(auth).Ok? && Paid(auth).value >= RequiredUnits(service.priceUsd)
    requires ValidAfter(auth).Ok? && ValidBefore(auth).Ok?
    requires ValidAfter(auth).value <= ValidBefore(auth).value
    ensures CheckAuthorization(signature, auth, service, recipient, ValidAfter(auth).value, id).Some?
    ensures CheckAuthorization(signature, auth, service, recipient, ValidBefore(auth).value, id).Some?
    ensures CheckAuthorization(signature, auth, service, recipient, ValidAfter(auth).value - 1, id).None?
    ensures CheckAuthorization(signature, auth, service, recipient, ValidBefore(auth).value + 1, id).None?
  {
  }

  // ---------------------------------------------------------------------------
  // Revenue

  /** The sum of the executed payments of a ledger. */
  function ExecutedTotal(ps: seq<PaymentRecord>): real {
    if ps == [] then 0.0
    else ExecutedTotal(ps[..|ps| - 1]) + (if ps[|ps| - 1].status == "executed" then ps[|ps| - 1].amountUsd else 0.0)
  }

  /** Services are stored under their own endpoint, each endpoint once. */
  ghost predicate ServicesKeyed(services: seq<(string, ServiceDefinition)>) {
    && UniqueKeys(services)
    && (forall i :: 0 <= i < |services| ==> services[i].1.endpoint == services[i].0)
  }

  /**
   * The records are the tail of the ledger, at most 10000 of them, and the total is the
   * sum of the executed payments ever recorded.
   */
  ghost predicate LedgerKept(payments: seq<PaymentRecord>, ledger: seq<PaymentRecord>, total: real) {
    && |payments| <= MaxPaymentRecords && |payments| <= |ledger|
    && payments == ledger[|ledger| - |payments|..]
    && total == ExecutedTotal(ledger)
  }

  /** A header, as the request brings it. */
  datatype PaymentHeader = NoHeader | Decoded(payload: Option<Value>)

  /** What `_handle_service_request` answers. */
  datatype Response =
    | PaymentRequired(body: Value)       // 402 with the requirement
    | InvalidPayment                     // 402 "Invalid payment signature"
    | Success(result: Value)             // 200 with the handler's result
    | ServerError(detail: string)        // 500 with the handler's error

  function Created(p: PaymentRecord): int { p.createdAt }

  class X402ServerState {
    const recipientAddress: string
    var services: seq<(string, ServiceDefinition)>
    var payments: seq<PaymentRecord>
    var totalRevenue: real
    var dailyRevenue: real
    var dailyReset: int
    /** Every payment ever recorded, of which `payments` keeps the most recent. */
    ghost var ledger: seq<PaymentRecord>

    /**
     * Services are keyed by their endpoint; the records are the tail of the ledger, at
     * most 10000 of them; total revenue is the sum of the executed payments ever recorded.
     */
    ghost predicate Valid()
      reads this
    {
      ServicesKeyed(services) && LedgerKept(payments, ledger, totalRevenue)
    }

    constructor(recipientAddress: string, now: int)
      ensures Valid()
      ensures this.recipientAddress == recipientAddress
      ensures services == [] && payments == [] && totalRevenue == 0.0 && dailyRevenue == 0.0 && dailyReset == now
    {
      this.recipientAddress := recipientAddress;
      services := [];
      payments := [];
      totalRevenue := 0.0;
      dailyRevenue := 0.0;
      dailyReset := now;
      ledger := [];
    }

    /** `register_service`: stored under its endpoint, replacing an earlier registration. */
    method RegisterService(name: string, endpoint: string, priceUsd: real, description: string, requiresAuth: bool)
      requires Valid()
      modifies this
      ensures Valid()
      ensures services == Put(old(services), endpoint,
                              ServiceDefinition(name, endpoint, DescriptionOr(name, description), priceUsd, requiresAuth))
      ensures forall e :: Get(services, e)
                          == if e == endpoint
                             then Some(ServiceDefinition(name, endpoint, DescriptionOr(name, description), priceUsd, requiresAuth))
                             else Get(old(services), e)
      ensures payments == old(payments) && totalRevenue == old(totalRevenue) && dailyRevenue == old(dailyRevenue)
      ensures dailyReset == old(dailyReset) && ledger == old(ledger)
    {
      var service := ServiceDefinition(name, endpoint, DescriptionOr(name, description), priceUsd, requiresAuth);
      RegisterKeepsKeyed(services, service);
      ghost var kept := LedgerKept(payments, ledger, totalRevenue);
      services := Put(services, endpoint, service);
      assert kept == LedgerKept(payments, ledger, totalRevenue);
    }

    /** `_check_daily_reset`: clears the daily revenue only. */
    method CheckDailyReset(now: int)
      requires Valid()
      modifies this
      ensures Valid()
      ensures dailyRevenue == (if now - old(dailyReset) > DaySeconds then 0.0 else old(dailyRevenue))
      ensures dailyReset == (if now - old(dailyReset) > DaySeconds then now else old(dailyReset))
      ensures services == old(services) && payments == old(payments) && totalRevenue == old(totalRevenue)
      ensures ledger == old(ledger)
    {
      if now - dailyReset > DaySeconds {
        dailyRevenue := 0.0;
        dailyReset := now;
      }
    }

    /**
     * `_record_payment`: always kept (the last 10000); only an executed payment adds to
     * the total and, after the reset check, to the daily revenue.
     */
    method RecordPayment(p: PaymentRecord, now: int)
      requires Valid()
      modifies this
      ensures Valid()
      ensures payments == AppendCapped(old(payments), p, MaxPaymentRecords)
      ensures ledger == old(ledger) + [p]
      ensures p.status == "executed" ==> totalRevenue == old(totalRevenue) + p.amountUsd
      ensures p.status != "executed" ==> totalRevenue == old(totalRevenue)
      ensures var reset := p.status == "executed" && now - old(dailyReset) > DaySeconds;
        dailyRevenue == (if reset then 0.0 else old(dailyRevenue)) + (if p.status == "executed" then p.amountUsd else 0.0)
      ensures dailyReset == (if p.status == "executed" && now - old(dailyReset) > DaySeconds then now else old(dailyReset))
      ensures services == old(services)
    {
      var executed := p.status == "executed";
      if executed {
        CheckDailyReset(now);
      }
      RecordKeepsLedger(payments, ledger, totalRevenue, p);
      var earned := if executed then p.amountUsd else 0.0;
      ledger, payments := ledger + [p], AppendCapped(payments, p, MaxPaymentRecords);
      totalRevenue, dailyRevenue := totalRevenue + earned, dailyRevenue + earned;
    }

    /**
     * `_handle_service_request`. Without a header the answer is the 402 requirement; an
     * authorization that fails verification is refused; otherwise the handler runs and the
     * payment is recorded, executed or failed, exactly once.
     */
    method HandleServiceRequest(service: ServiceDefinition, header: PaymentHeader, id: string, now: int,
                                nonce: string, handler: Result<Value>)
      returns (response: Response)
      requires Valid()
      modifies this
      ensures Valid()
      ensures header.NoHeader? ==> response == PaymentRequired(PaymentRequiredBody(service, recipientAddress, now, nonce))
      ensures header.Decoded? ==>
        match VerifyPayment(header.payload, service, recipientAddress, now, id)
        case None => response == InvalidPayment
        case Some(p) =>
          && (handler.Ok? ==> response == Success(handler.value))
          && (handler.Err? ==> response == ServerError(handler.error))
      ensures header.NoHeader? || VerifyPayment(header.payload, service, recipientAddress, now, id).None? ==>
        && ledger == old(ledger) && payments == old(payments)
        && totalRevenue == old(totalRevenue) && dailyRevenue == old(dailyRevenue) && dailyReset == old(dailyReset)
      ensures header.Decoded? && VerifyPayment(header.payload, service, recipientAddress, now, id).Some? ==>
        var p := VerifyPayment(header.payload, service, recipientAddress, now, id).value;
        var rec := if handler.Ok? then p.(status := "executed", result := Some(handler.value)) else p.(status := "failed");
        var reset := handler.Ok? && now - old(dailyReset) > DaySeconds;
        && ledger == old(ledger) + [rec]
        && payments == AppendCapped(old(payments), rec, MaxPaymentRecords)
        && totalRevenue == old(totalRevenue) + (if handler.Ok? then rec.amountUsd else 0.0)
        && dailyRevenue == (if reset then 0.0 else old(dailyRevenue)) + (if handler.Ok? then rec.amountUsd else 0.0)
        && dailyReset == (if reset then now else old(dailyReset))
      ensures services == old(services)
    {
      if header.NoHeader? {
        return PaymentRequired(PaymentRequiredBody(service, recipientAddress, now, nonce));
      }
      var verified := VerifyPayment(header.payload, service, recipientAddress, now, id);
      if verified.None? {
        return InvalidPayment;
      }
      var p := verified.value;
      if handler.Ok? {
        RecordPayment(p.(status := "executed", result := Some(handler.value)), now);
        response := Success(handler.value);
      } else {
        RecordPayment(p.(status := "failed"), now);
        response := ServerError(handler.error);
      }
    }

    /** The `/stats` numbers, after the reset check. */
    method Stats(now: int) returns (total: real, daily: real, paymentCount: nat, serviceCount: nat)
      requires Valid()
      modifies this
      ensures Valid()
      ensures total == old(totalRevenue) && total == ExecutedTotal(ledger)
      ensures daily == (if now - old(dailyReset) > DaySeconds then 0.0 else old(dailyRevenue))
      ensures paymentCount == |payments| && serviceCount == |services|
      ensures dailyRevenue == daily
      ensures dailyReset == (if now - old(dailyReset) > DaySeconds then now else old(dailyReset))
      ensures services == old(services) && payments == old(payments) && totalRevenue == old(totalRevenue)
      ensures ledger == old(ledger)
    {
      CheckDailyReset(now);
      return totalRevenue, dailyRevenue, |payments|, |services|;
    }

    /** `get_payment_history(limit)`: newest first, at most `limit` records. */
    function PaymentHistory(limit: int): (r: seq<PaymentRecord>)
      reads this
      ensures limit >= 0 ==> |r| == Min(limit, |payments|)
      ensures NewestFirst(r, Created)
      ensures multiset(r) <= multiset(payments)
      ensures r == UpTo(SortNewestFirst(payments, Created), limit)
      ensures forall x, y :: x in payments && x !in r && y in r ==> Created(x) <= Created(y)
    {
      NewestFirstTop(payments, Created, limit);
      UpTo(SortNewestFirst(payments, Created), limit)
    }
  }

  lemma KeyedPut(services: seq<(string, ServiceDefinition)>, s: ServiceDefinition)
    requires forall i :: 0 <= i < |services| ==> services[i].1.endpoint == services[i].0
    ensures var r := Put(services, s.endpoint, s);
      forall i :: 0 <= i < |r| ==> r[i].1.endpoint == r[i].0
  {
    if services != [] && services[0].0 != s.endpoint {
      KeyedPut(services[1..], s);
    }
  }

  /** Appending to the ledger and to its kept tail: the tail stays a tail, and the total grows by executed payments. */
  lemma LedgerTail(ledger: seq<PaymentRecord>, tail: seq<PaymentRecord>, p: PaymentRecord)
    requires |tail| <= |ledger| && tail == ledger[|ledger| - |tail|..]
    ensures var kept := AppendCapped(tail, p, MaxPaymentRecords);
      |kept| <= |ledger + [p]| && kept == (ledger + [p])[|ledger + [p]| - |kept|..]
    ensures ExecutedTotal(ledger + [p])
            == ExecutedTotal(ledger) + (if p.status == "executed" then p.amountUsd else 0.0)
  {
    var kept := AppendCapped(tail, p, MaxPaymentRecords);
    var all := ledger + [p];
    assert kept == (tail + [p])[|tail| + 1 - |kept|..];
    assert tail + [p] == all[|all| - |tail| - 1..];
    assert all[..|all| - 1] == ledger;
  }

  /** Registering a service keeps the services keyed by endpoint and changes that endpoint's entry only. */
  lemma RegisterKeepsKeyed(services: seq<(string, ServiceDefinition)>, service: ServiceDefinition)
    requires ServicesKeyed(services)
    ensures ServicesKeyed(Put(services, service.endpoint, service))
    ensures forall e :: Get(Put(services, service.endpoint, service), e)
                        == (if e == service.endpoint then Some(service) else Get(services, e))
  {
    PutKeepsUniqueKeys(services, service.endpoint, service);
    forall e ensures Get(Put(services, service.endpoint, service), e)
                     == (if e == service.endpoint then Some(service) else Get(services, e)) {
      PutGet(services, service.endpoint, service, e);
    }
    KeyedPut(services, service);
  }

  /** Recording a payment keeps the records a capped tail of the ledger and the total its executed sum. */
  lemma RecordKeepsLedger(payments: seq<PaymentRecord>, ledger: seq<PaymentRecord>, total: real, p: PaymentRecord)
    requires LedgerKept(payments, ledger, total)
    ensures LedgerKept(AppendCapped(payments, p, MaxPaymentRecords), ledger + [p],
                       total + (if p.status == "executed" then p.amountUsd else 0.0))
  {
    LedgerTail(ledger, payments, p);
  }

  /** A failed execution is recorded but earns nothing. */
  lemma FailedPaymentsEarnNothing(ledger: seq<PaymentRecord>, p: PaymentRecord)
    requires p.status != "executed"
    ensures ExecutedTotal(ledger + [p]) == ExecutedTotal(ledger)
  {
    assert (ledger + [p])[..|ledger + [p]| - 1] == ledger;
  }
}
