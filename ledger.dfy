/**
 * The webhook's ledger and its two handlers that touch it
 * (functions/index.js:35-37, :44-116) and the dispatch of a request
 * through actionMap (functions/index.js:265-277).
 */
module Webhook {
  import opened Wrappers
  import opened Accounts
  import opened Contexts
  import opened Transfers
  import opened Actions

  /**
   * What a handler answers. The eight handlers that only call the
   * conversation SDK are Delegated; NoHandler is an action with no entry in
   * actionMap; Failed is a request whose context lookup found nothing or threw.
   */
  datatype Reply =
    | NotEnough(account: string)
    | Transferred(confirmation: string)
    | Balance(cents: int)
    | Failed
    | Delegated(intent: Intent)
    | NoHandler

  /**
   * String.prototype.substr with one argument: a negative start counts from
   * the end and is raised to 0; a start past the end gives the empty string.
   */
  function JsSubstr(s: string, start: int): (r: string)
    ensures |r| <= |s| && r == s[|s| - |r|..]
    ensures start >= 0 ==> |r| == (if start <= |s| then |s| - start else 0)
    ensures start < 0 ==> |r| == (if -start <= |s| then -start else |s|)
  {
    var from := if start < 0 then (if |s| + start < 0 then 0 else |s| + start)
                else (if start > |s| then |s| else start);
    s[from..]
  }

  /**
   * The confirmation number: "B" and the last nine characters of the
   * timestamp string. A timestamp of 5 to 8 characters keeps only its last
   * 9 - length characters, since substr counts the negative start from the
   * end; one of 4 characters or fewer is kept whole.
   */
  function Confirmation(timestamp: string): (r: string)
    ensures |r| > 0 && r[0] == 'B'
    ensures |timestamp| >= 9 ==> |r| == 10 && r[1..] == timestamp[|timestamp| - 9..]
    ensures |timestamp| < 9 ==>
      |r| - 1 == (if 9 - |timestamp| <= |timestamp| then 9 - |timestamp| else |timestamp|) &&
      r[1..] == timestamp[|timestamp| - (|r| - 1)..]
    ensures (forall k :: 0 <= k < |timestamp| ==> '0' <= timestamp[k] <= '9') ==>
      forall k :: 1 <= k < |r| ==> '0' <= r[k] <= '9'
  {
    "B" + JsSubstr(timestamp, |timestamp| - 9)
  }

  /** A thirteen-digit millisecond timestamp keeps its last nine digits. */
  lemma ConfirmationExample()
    ensures Confirmation("1507221234567") == "B221234567"
  {
  }

  /** A timestamp of at most four characters is kept whole. */
  lemma TinyTimestampKeptWhole(timestamp: string)
    requires |timestamp| <= 4
    ensures Confirmation(timestamp) == "B" + timestamp
  {
  }

  /** A five-character timestamp keeps only its last four characters. */
  lemma ShortTimestampExample()
    ensures Confirmation("12345") == "B2345"
  {
  }

  /** The account a balance-check name stands for: the transfer names, and "chequing account" for checking. */
  function BalanceName(name: string): Option<Account>
  {
    if name == "chequing account" then Some(Checking) else Parse(name)
  }

  /**
   * The switch of balanceAmountCheck (functions/index.js:99-114): the amount
   * starts at 0 and is set only for a recognised name.
   */
  function BalanceAmount(b: Balances, name: string): (r: int)
    ensures BalanceName(name).Some? ==> r == Get(b, BalanceName(name).value)
    ensures BalanceName(name).None? ==> r == 0
  {
    if name == "savings account" then b.savings
    else if name == "chequing account" || name == "checking account" then b.checking
    else if name == "credit card account" then b.creditCard
    else 0
  }

  /** "chequing account" and "checking account" report the same balance. */
  lemma ChequingIsChecking(b: Balances)
    ensures BalanceAmount(b, "chequing account") == BalanceAmount(b, "checking account") == b.checking
  {
  }

  /** The process-wide balances, as cents. */
  class Ledger {
    var savings: int
    var checking: int
    var creditCard: int

    /** The balances at process start. */
    constructor ()
      ensures State() == Seed
    {
      savings := 2021;
      checking := 10122;
      creditCard := 3342;
    }

    function State(): Balances
      reads this
    {
      Balances(savings, checking, creditCard)
    }

    /**
     * The two switches of transferMoney (functions/index.js:55-92): check
     * and debit the source, then, when the balance was enough, credit the
     * destination.
     */
    method Transfer(from: string, to: string, amount: int) returns (enough: bool)
      modifies this
      ensures State() == TransferSpec(old(State()), from, to, amount).after
      ensures enough == TransferSpec(old(State()), from, to, amount).enough
    {
      enough := true;
      if from == "savings account" {
        if savings < amount { enough := false; } else { savings := savings - amount; }
      } else if from == "checking account" {
        if checking < amount { enough := false; } else { checking := checking - amount; }
      } else if from == "credit card account" {
        if creditCard < amount { enough := false; } else { creditCard := creditCard - amount; }
      }
      if enough {
        if to == "savings account" {
          savings := savings + amount;
        } else if to == "checking account" {
          checking := checking + amount;
        } else if to == "credit card account" {
          creditCard := creditCard + amount;
        }
      }
    }

    /**
     * transferMoney: read amount, destination and source in that order,
     * fail when any of them is missing, otherwise transfer and answer with
     * the refusal naming the source or with a confirmation number.
     */
    method TransferMoney(cs: seq<Context>, timestamp: string) returns (reply: Reply)
      modifies this
      ensures ParseTransfer(cs).None? ==> reply == Failed && State() == old(State())
      ensures ParseTransfer(cs).Some? ==>
        var t := ParseTransfer(cs).value;
        var s := TransferSpec(old(State()), t.accountFrom, t.accountTo, t.amount);
        State() == s.after && reply == (if s.enough then Transferred(Confirmation(timestamp)) else NotEnough(t.accountFrom))
    {
      var args := ParseTransfer(cs);
      if args.None? {
        reply := Failed;
      } else {
        var enough := Transfer(args.value.accountFrom, args.value.accountTo, args.value.amount);
        if enough {
          reply := Transferred(Confirmation(timestamp));
        } else {
          reply := NotEnough(args.value.accountFrom);
        }
      }
    }

    /**
     * balanceAmountCheck: the balance named by the first qualifying
     * context, 0 for a name that is no account, Failed when there is none.
     */
    function BalanceAmountCheck(cs: seq<Context>): (r: Reply)
      reads this
      ensures r.Failed? <==> ParseAccount(cs).None?
      ensures r.Failed? || r.Balance?
      ensures r.Balance? && BalanceName(ParseAccount(cs).value).Some? ==>
        r.cents == Get(State(), BalanceName(ParseAccount(cs).value).value)
      ensures r.Balance? && BalanceName(ParseAccount(cs).value).None? ==> r.cents == 0
    {
      match ParseAccount(cs)
      case Some(name) => Balance(BalanceAmount(State(), name))
      case None => Failed
    }

    /**
     * app.handleRequest(actionMap): run the handler registered for the
     * action. Only transfer.money changes the ledger.
     */
    method HandleRequest(action: string, cs: seq<Context>, timestamp: string) returns (reply: Reply)
      modifies this
      ensures Route(action) != Some(Intent.TransferMoney) ==> State() == old(State())
      ensures Route(action).None? ==> reply == NoHandler
      ensures Route(action) == Some(Intent.BalanceAmountCheck) ==> reply == BalanceAmountCheck(cs)
      ensures Route(action) == Some(Intent.TransferMoney) && ParseTransfer(cs).None? ==> reply == Failed && State() == old(State())
      ensures Route(action) == Some(Intent.TransferMoney) && ParseTransfer(cs).Some? ==>
        var t := ParseTransfer(cs).value;
        var s := TransferSpec(old(State()), t.accountFrom, t.accountTo, t.amount);
        State() == s.after && reply == (if s.enough then Transferred(Confirmation(timestamp)) else NotEnough(t.accountFrom))
      ensures Route(action).Some? && Route(action).value != Intent.TransferMoney && Route(action).value != Intent.BalanceAmountCheck ==>
        reply == Delegated(Route(action).value)
    {
      var intent := Route(action);
      if intent == None {
        reply := NoHandler;
      } else if intent == Some(Intent.TransferMoney) {
        reply := TransferMoney(cs, timestamp);
      } else if intent == Some(Intent.BalanceAmountCheck) {
        reply := BalanceAmountCheck(cs);
      } else {
        reply := Delegated(intent.value);
      }
    }
  }

  /** A scenario on a fresh ledger: $10.00 from checking to savings. */
  method CheckingToSavingsExample()
  {
    var ledger := new Ledger();
    var transfer := Context("transfer", Some(1000), Some("savings account"), Some(["checking account"]), None);
    assert Find([transfer], AmountParam) == Found(transfer);
    assert Find([transfer], AccountToParam) == Found(transfer);
    assert Find([transfer], AccountFromParam) == Found(transfer);
    var reply := ledger.HandleRequest("transfer.money", [transfer], "1507221234567");
    assert ledger.State() == Balances(3021, 9122, 3342) by {
      SeedExample();
    }
    assert reply.Transferred? && reply.confirmation[0] == 'B';
  }

  /** A balance check on a fresh ledger: the credit card holds $33.42. */
  method CreditCardBalanceExample()
  {
    var ledger := new Ledger();
    var screen := Context("actions_capability_screen_output", None, None, None, Some("credit card account"));
    assert Find([screen], AccountParam) == Found(screen);
    var reply := ledger.HandleRequest("account.balance.check", [screen], "1507221234999");
    assert reply == Balance(3342);
  }
}
