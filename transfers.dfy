/**
 * The ledger effect of transferMoney (functions/index.js:55-92) as a
 * function of the balances before the request: a funds check and debit on
 * the source account, then a credit to the destination.
 */
module Transfers {
  import opened Wrappers
  import opened Accounts

  /** The balances after a transfer, and the value of the balanceEnough flag. */
  datatype Step = Step(after: Balances, enough: bool)

  /** What a transfer adds to account a: minus the amount at the source, plus it at the destination. */
  function Delta(a: Account, from: string, to: string, amount: int): int
  {
    (if Parse(to) == Some(a) then amount else 0) - (if Parse(from) == Some(a) then amount else 0)
  }

  /**
   * A recognised source fails the check when its balance is strictly below
   * the amount (all three accounts alike) and then nothing changes. Otherwise
   * every account moves by its Delta: a name that is no account is neither
   * debited nor credited.
   */
  function TransferSpec(b: Balances, from: string, to: string, amount: int): (r: Step)
    ensures r.enough <==> (Parse(from).None? || amount <= Get(b, Parse(from).value))
    ensures !r.enough ==> r.after == b
    ensures r.enough ==> forall a: Account :: Get(r.after, a) == Get(b, a) + Delta(a, from, to, amount)
  {
    var source := Parse(from);
    if source.Some? && Get(b, source.value) < amount then
      Step(b, false)
    else
      var debited := if source.Some? then Put(b, source.value, Get(b, source.value) - amount) else b;
      var target := Parse(to);
      var credited := if target.Some? then Put(debited, target.value, Get(debited, target.value) + amount) else debited;
      Step(credited, true)
  }

  /** Too large an amount for a recognised source: nothing changes and the request is refused. */
  lemma InsufficientChangesNothing(b: Balances, from: string, to: string, amount: int)
    requires Parse(from).Some? && Get(b, Parse(from).value) < amount
    ensures TransferSpec(b, from, to, amount) == Step(b, false)
  {
  }

  /** The check is strict: moving a whole balance elsewhere succeeds and empties the source. */
  lemma WholeBalanceEmptiesSource(b: Balances, from: string, to: string)
    requires Parse(from).Some? && Parse(to) != Parse(from)
    ensures var r := TransferSpec(b, from, to, Get(b, Parse(from).value));
      r.enough && Get(r.after, Parse(from).value) == 0
  {
  }

  /** Between two distinct accounts the amount leaves one, reaches the other, and the third stays. */
  lemma MovesAmount(b: Balances, from: string, to: string, amount: int, third: Account)
    requires Parse(from).Some? && Parse(to).Some? && Parse(from) != Parse(to)
    requires amount <= Get(b, Parse(from).value)
    requires Some(third) != Parse(from) && Some(third) != Parse(to)
    ensures var r := TransferSpec(b, from, to, amount);
      r.enough &&
      Get(r.after, Parse(from).value) == Get(b, Parse(from).value) - amount &&
      Get(r.after, Parse(to).value) == Get(b, Parse(to).value) + amount &&
      Get(r.after, third) == Get(b, third)
  {
  }

  /** The same account on both sides: a successful transfer changes no balance. */
  lemma SelfTransferChangesNothing(b: Balances, name: string, amount: int)
    requires Parse(name).Some?
    ensures TransferSpec(b, name, name, amount).after == b
  {
  }

  /** Between recognised accounts money is neither made nor lost. */
  lemma PreservesTotal(b: Balances, from: string, to: string, amount: int)
    requires Parse(from).Some? && Parse(to).Some?
    ensures Total(TransferSpec(b, from, to, amount).after) == Total(b)
  {
  }

  /**
   * A source that is no account is never checked nor debited: the transfer
   * succeeds and the destination, if it is an account, gains the amount.
   */
  lemma UnknownSourceOnlyCredits(b: Balances, from: string, to: string, amount: int)
    requires Parse(from).None?
    ensures var r := TransferSpec(b, from, to, amount);
      r.enough && r.after == (if Parse(to).Some? then Put(b, Parse(to).value, Get(b, Parse(to).value) + amount) else b)
  {
  }

  /** A destination that is no account: the source is debited and nothing is credited. */
  lemma UnknownDestinationOnlyDebits(b: Balances, from: string, to: string, amount: int)
    requires Parse(to).None? && Parse(from).Some? && amount <= Get(b, Parse(from).value)
    ensures var r := TransferSpec(b, from, to, amount);
      r.enough && r.after == Put(b, Parse(from).value, Get(b, Parse(from).value) - amount)
  {
  }

  /**
   * Sending the amount back undoes a transfer between accounts, provided the
   * destination did not start in debt (it then holds at least the amount).
   */
  lemma TransferBackRestores(b: Balances, from: string, to: string, amount: int)
    requires Parse(from).Some? && Parse(to).Some?
    requires amount <= Get(b, Parse(from).value) && Get(b, Parse(to).value) >= 0
    ensures var r := TransferSpec(b, from, to, amount);
      r.enough && TransferSpec(r.after, to, from, amount) == Step(b, true)
  {
  }

  /** A transfer of a non-negative amount never drives a non-negative ledger below zero. */
  lemma KeepsNonNegative(b: Balances, from: string, to: string, amount: int)
    requires NonNegative(b) && amount >= 0
    ensures NonNegative(TransferSpec(b, from, to, amount).after)
  {
  }

  /**
   * The module-level balances persist across requests: the ledger after a
   * series of transfers, each one applied to the result of the last.
   */
  function Replay(b: Balances, ts: seq<(string, string, int)>): (r: Balances)
    ensures ts == [] ==> r == b
    ensures |ts| == 1 ==> r == TransferSpec(b, ts[0].0, ts[0].1, ts[0].2).after
    decreases |ts|
  {
    if ts == [] then b
    else Replay(TransferSpec(b, ts[0].0, ts[0].1, ts[0].2).after, ts[1..])
  }

  /** Replaying two series one after the other is replaying their concatenation. */
  lemma {:induction false} ReplayAppend(b: Balances, ts: seq<(string, string, int)>, us: seq<(string, string, int)>)
    ensures Replay(b, ts + us) == Replay(Replay(b, ts), us)
    decreases |ts|
  {
    if ts == [] {
      assert ts + us == us;
    } else {
      assert (ts + us)[0] == ts[0] && (ts + us)[1..] == ts[1..] + us;
      ReplayAppend(TransferSpec(b, ts[0].0, ts[0].1, ts[0].2).after, ts[1..], us);
    }
  }

  /** Any series of transfers between recognised accounts keeps the total. */
  lemma {:induction false} ReplayPreservesTotal(b: Balances, ts: seq<(string, string, int)>)
    requires forall k :: 0 <= k < |ts| ==> Parse(ts[k].0).Some? && Parse(ts[k].1).Some?
    ensures Total(Replay(b, ts)) == Total(b)
    decreases |ts|
  {
    if ts != [] {
      PreservesTotal(b, ts[0].0, ts[0].1, ts[0].2);
      ReplayPreservesTotal(TransferSpec(b, ts[0].0, ts[0].1, ts[0].2).after, ts[1..]);
    }
  }

  /** Any series of non-negative transfers keeps a non-negative ledger non-negative. */
  lemma {:induction false} ReplayKeepsNonNegative(b: Balances, ts: seq<(string, string, int)>)
    requires NonNegative(b)
    requires forall k :: 0 <= k < |ts| ==> ts[k].2 >= 0
    ensures NonNegative(Replay(b, ts))
    decreases |ts|
  {
    if ts != [] {
      KeepsNonNegative(b, ts[0].0, ts[0].1, ts[0].2);
      ReplayKeepsNonNegative(TransferSpec(b, ts[0].0, ts[0].1, ts[0].2).after, ts[1..]);
    }
  }

  /** A worked example: $10.00 from checking to savings gives savings $30.21 and checking $91.22. */
  lemma SeedExample()
    ensures TransferSpec(Seed, "checking account", "savings account", 1000) == Step(Balances(3021, 9122, 3342), true)
  {
  }
}
