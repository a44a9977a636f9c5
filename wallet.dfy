// The treasury wallet of src/core/wallet.py: the spending guards in front of every
// payment, the daily-spend counter and its 24-hour reset, the address whitelist and
// the transaction history. The chain (RPC, signing, receipts) is an input: whether a
// connection exists, and what the chain reported for a transfer.
module Wallet {
  import opened Py
  import opened Json
  import opened Config

  /** Seconds in the 24 hours after which the daily counter resets. */
  const DaySeconds: int := 86400

  datatype Transaction = Transaction(
    id: string,
    kind: string,
    amount: real,
    currency: string,
    toAddress: string,
    fromAddress: string,
    status: string,
    timestamp: int,
    txHash: Option<string>,
    metadata: Option<Value>)

  /**
   * What the chain did with a transfer: the hash, if the transfer was submitted, and
   * whether the receipt reported success. An exception anywhere is a failure.
   */
  datatype ChainOutcome = ChainOutcome(txHash: Option<string>, succeeded: bool)

  /** The status a transfer ends in: "simulated" without a chain connection. */
  function SettledStatus(chain: Option<ChainOutcome>): (s: string)
    ensures s == "simulated" <==> chain.None?
    ensures s == "confirmed" <==> chain.Some? && chain.value.succeeded
    ensures s in {"simulated", "confirmed", "failed"}
  {
    match chain
    case None => "simulated"
    case Some(c) => if c.succeeded then "confirmed" else "failed"
  }

  /** Only confirmed and simulated transfers count against the daily limit. */
  predicate CountsAgainstLimit(status: string) {
    status == "confirmed" || status == "simulated"
  }

  /** The set of lower-cased addresses of the configured whitelist. */
  function LowerAll(addresses: seq<string>): (r: set<string>)
    ensures forall a :: a in r <==> exists i :: 0 <= i < |addresses| && a == Lower(addresses[i])
  {
    if addresses == [] then {}
    else {Lower(addresses[0])} + LowerAll(addresses[1..])
  }

  predicate AllLowered(addresses: set<string>) {
    forall a :: a in addresses ==> IsLowered(a)
  }

  lemma LowerAllLowered(addresses: seq<string>)
    ensures AllLowered(LowerAll(addresses))
  {
    forall a | a in LowerAll(addresses) ensures IsLowered(a) {
      var i :| 0 <= i < |addresses| && a == Lower(addresses[i]);
      LowerIsLowered(addresses[i]);
    }
  }

  /**
   * The guards `send_payment` applies, in their order: the single-transaction limit,
   * the daily limit, the whitelist (when it is not empty and not skipped) and the
   * multisig threshold. All four must pass.
   */
  predicate PaymentAllowed(limits: WalletLimits, multisig: real, spent: real, approved: set<string>,
                           to: string, amount: real, skipWhitelist: bool)
  {
    amount <= limits.maxSingleTxUsd
    && spent + amount <= limits.maxDailySpendUsd
    && (skipWhitelist || approved == {} || Lower(to) in approved)
    && amount <= multisig
  }

  /** The daily counter after the reset check at time `now`. */
  function SpentAfterReset(spent: real, resetTime: int, now: int): real {
    if now - resetTime > DaySeconds then 0.0 else spent
  }

  class WalletManager {
    const limits: WalletLimits
    const multisigThreshold: real
    /** The wallet's own address, once a key is loaded. */
    const address: Option<string>
    var dailySpent: real
    var dailyResetTime: int
    var approvedAddresses: set<string>
    var transactions: seq<Transaction>

    /**
     * The wallet's invariant: the whitelist holds lower-cased addresses only, and the
     * daily counter is either fresh or within the daily limit.
     */
    ghost predicate Valid()
      reads this
    {
      AllLowered(approvedAddresses)
      && (dailySpent == 0.0 || dailySpent <= limits.maxDailySpendUsd)
    }

    constructor(limits: WalletLimits, multisigThreshold: real, approved: seq<string>,
                address: Option<string>, now: int)
      ensures Valid()
      ensures this.limits == limits && this.multisigThreshold == multisigThreshold
      ensures this.address == address
      ensures dailySpent == 0.0 && dailyResetTime == now && transactions == []
      ensures approvedAddresses == LowerAll(approved)
    {
      this.limits := limits;
      this.multisigThreshold := multisigThreshold;
      this.address := address;
      dailySpent := 0.0;
      dailyResetTime := now;
      approvedAddresses := LowerAll(approved);
      transactions := [];
      LowerAllLowered(approved);
    }

    /** `_check_daily_reset`: more than 24 hours since the last reset zeroes the counter. */
    method CheckDailyReset(now: int)
      requires Valid()
      modifies this
      ensures Valid()
      ensures dailySpent == SpentAfterReset(old(dailySpent), old(dailyResetTime), now)
      ensures dailyResetTime == (if now - old(dailyResetTime) > DaySeconds then now else old(dailyResetTime))
      ensures approvedAddresses == old(approvedAddresses) && transactions == old(transactions)
    {
      if now - dailyResetTime > DaySeconds {
        dailySpent := 0.0;
        dailyResetTime := now;
      }
    }

    /**
     * `send_payment`. A payment any guard refuses returns None and records nothing; one
     * that passes every guard records exactly one transaction, whose amount counts
     * against the daily limit only when it was confirmed or simulated. `chain` is None
     * when no chain connection is configured.
     */
    method SendPayment(to: string, amount: real, currency: string, metadata: Option<Value>,
                       skipWhitelist: bool, id: string, now: int, chain: Option<ChainOutcome>)
      returns (tx: Option<Transaction>)
      requires Valid()
      modifies this
      ensures Valid()
      ensures var spent := SpentAfterReset(old(dailySpent), old(dailyResetTime), now);
        && (tx.Some? <==> PaymentAllowed(limits, multisigThreshold, spent, approvedAddresses, to, amount, skipWhitelist))
        && (tx.None? ==> transactions == old(transactions) && dailySpent == spent)
        && (tx.Some? ==>
              && tx.value == Transaction(id, "send", amount, currency, to, AddressOr(address), SettledStatus(chain),
                                         now, if chain.Some? then chain.value.txHash else None, metadata)
              && transactions == old(transactions) + [tx.value]
              && dailySpent == spent + (if CountsAgainstLimit(tx.value.status) then amount else 0.0))
      ensures dailyResetTime == (if now - old(dailyResetTime) > DaySeconds then now else old(dailyResetTime))
      ensures approvedAddresses == old(approvedAddresses)
    {
      CheckDailyReset(now);
      if amount > limits.maxSingleTxUsd {
        return None;
      }
      if dailySpent + amount > limits.maxDailySpendUsd {
        return None;
      }
      if !skipWhitelist && approvedAddresses != {} {
        if Lower(to) !in approvedAddresses {
          return None;
        }
      }
      if amount > multisigThreshold {
        return None;
      }
      var status := SettledStatus(chain);
      var t := Transaction(id, "send", amount, currency, to, AddressOr(address), status,
                           now, if chain.Some? then chain.value.txHash else None, metadata);
      if CountsAgainstLimit(status) {
        dailySpent := dailySpent + amount;
      }
      transactions := transactions + [t];
      tx := Some(t);
    }

    /** `add_approved_address`: the address is stored lower-cased. */
    method AddApprovedAddress(a: string)
      requires Valid()
      modifies this
      ensures Valid()
      ensures approvedAddresses == old(approvedAddresses) + {Lower(a)}
      ensures dailySpent == old(dailySpent) && dailyResetTime == old(dailyResetTime) && transactions == old(transactions)
    {
      LowerIsLowered(a);
      approvedAddresses := approvedAddresses + {Lower(a)};
    }

    /** `remove_approved_address`: discards the lower-cased address, present or not. */
    method RemoveApprovedAddress(a: string)
      requires Valid()
      modifies this
      ensures Valid()
      ensures approvedAddresses == old(approvedAddresses) - {Lower(a)}
      ensures dailySpent == old(dailySpent) && dailyResetTime == old(dailyResetTime) && transactions == old(transactions)
    {
      approvedAddresses := approvedAddresses - {Lower(a)};
    }

    /** `get_transaction_history(limit)`: newest first, at most `limit` entries. */
    function TransactionHistory(limit: int): (r: seq<Transaction>)
      reads this
      ensures r == UpTo(SortNewestFirst(transactions, Stamp), limit)
      ensures limit >= 0 ==> |r| == Min(limit, |transactions|)
      ensures NewestFirst(r, Stamp)
      ensures multiset(r) <= multiset(transactions)
    {
      var sorted := SortNewestFirst(transactions, Stamp);
      SortNewestFirstCorrect(transactions, Stamp);
      var r := UpTo(sorted, limit);
      assert sorted == r + sorted[|r|..];
      assert multiset(sorted) == multiset(r) + multiset(sorted[|r|..]);
      r
    }
  }

  function Stamp(t: Transaction): int { t.timestamp }

  /** `self.address or ""` */
  function AddressOr(a: Option<string>): string {
    if a.Some? then a.value else ""
  }

  /** The whitelist check is case-insensitive: only the lower-cased recipient matters. */
  lemma WhitelistIgnoresCase(limits: WalletLimits, multisig: real, spent: real, approved: set<string>,
                             to: string, to': string, amount: real, skip: bool)
    requires Lower(to) == Lower(to')
    ensures PaymentAllowed(limits, multisig, spent, approved, to, amount, skip)
        == PaymentAllowed(limits, multisig, spent, approved, to', amount, skip)
  {
  }
}
