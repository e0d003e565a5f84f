/**
 * The request contexts the handlers search (functions/index.js:46-54,
 * :100-102) and the first-match search itself, Array.prototype.find over
 * the callbacks written there.
 */
module Contexts {
  import opened Wrappers

  /**
   * One Dialogflow context with the parameters the handlers read. A missing
   * parameter is None. `amount` is the inner number of the amount object
   * (in cents), `accountFrom` the list the agent sends for 'account-from'.
   */
  datatype Context = Context(
    name: string,
    amount: Option<int>,
    accountTo: Option<string>,
    accountFrom: Option<seq<string>>,
    account: Option<string>)

  /** The four callbacks passed to find. */
  datatype Probe = AmountParam | AccountToParam | AccountFromParam | AccountParam

  /** What a callback does with one context: accept it, pass it by, or throw. */
  datatype Verdict = Accept | Reject | Throw

  /** The outcome of find: the first accepted context, none, or the callback threw. */
  datatype Lookup = Found(ctx: Context) | NotFound | Raised

  /** A JavaScript string is truthy when it is not empty. */
  predicate Truthy(s: Option<string>)
  {
    s.Some? && s.value != ""
  }

  /** The first element of a context's 'account-from' list, if there is one. */
  function FirstAccountFrom(c: Context): Option<string>
  {
    if c.accountFrom.Some? && |c.accountFrom.value| > 0 then Some(c.accountFrom.value[0]) else None
  }

  /** The JavaScript values a callback reads: undefined, a string, or an object. */
  datatype JsValue = Undefined | Str(s: string) | Object

  /** JavaScript truthiness: undefined and the empty string are falsy, every object is truthy. */
  predicate JsTruthy(v: JsValue)
  {
    match v
    case Undefined => false
    case Str(s) => s != ""
    case Object => true
  }

  /** The context name each callback compares with `el.name`. */
  function CallbackName(p: Probe): string
  {
    if p == AccountParam then "actions_capability_screen_output" else "transfer"
  }

  /**
   * The value each callback reads after the name test: `.amount` (an
   * object), `['account-to']`, `['account-from'][0]` or `.account`. None
   * when the access throws, which is indexing a missing 'account-from'.
   */
  function Access(p: Probe, c: Context): Option<JsValue>
  {
    match p
    case AmountParam => Some(if c.amount.Some? then Object else Undefined)
    case AccountToParam => Some(if c.accountTo.Some? then Str(c.accountTo.value) else Undefined)
    case AccountFromParam =>
      if c.accountFrom.None? then None
      else if |c.accountFrom.value| > 0 then Some(Str(c.accountFrom.value[0]))
      else Some(Undefined)
    case AccountParam => Some(if c.account.Some? then Str(c.account.value) else Undefined)
  }

  /**
   * The callbacks of functions/index.js:46-54 and :100-102, one case per
   * callback. Each evaluates `el.name == N && <access>` as JavaScript does:
   * a different name short-circuits to false, otherwise the access either
   * throws or yields a value whose truthiness decides.
   */
  function Test(p: Probe, c: Context): (v: Verdict)
    ensures v == Throw <==> c.name == CallbackName(p) && Access(p, c).None?
    ensures v == Accept <==> c.name == CallbackName(p) && Access(p, c).Some? && JsTruthy(Access(p, c).value)
  {
    match p
    case AmountParam =>
      if c.name == "transfer" && c.amount.Some? then Accept else Reject
    case AccountToParam =>
      if c.name == "transfer" && Truthy(c.accountTo) then Accept else Reject
    case AccountFromParam =>
      if c.name != "transfer" then Reject
      else if c.accountFrom.None? then Throw
      else if |c.accountFrom.value| > 0 && c.accountFrom.value[0] != "" then Accept
      else Reject
    case AccountParam =>
      if c.name == "actions_capability_screen_output" && Truthy(c.account) then Accept else Reject
  }

  /** Of the four callbacks only the 'account-from' one can throw, and only on a "transfer" context without that list. */
  lemma OnlyAccountFromThrows(p: Probe, c: Context)
    requires Test(p, c) == Throw
    ensures p == AccountFromParam && c.name == "transfer" && c.accountFrom.None?
  {
  }

  /** Every context of cs is passed by. */
  ghost predicate AllReject(cs: seq<Context>, p: Probe)
  {
    forall j :: 0 <= j < |cs| ==> Test(p, cs[j]) == Reject
  }

  /** Context i is the one find returns: the callback accepts it and passes by every earlier one. */
  ghost predicate FirstAccepted(cs: seq<Context>, p: Probe, i: int)
  {
    0 <= i < |cs| && Test(p, cs[i]) == Accept && AllReject(cs[..i], p)
  }

  /** At most one context is the first one accepted. */
  lemma FirstAcceptedUnique(cs: seq<Context>, p: Probe, i: int, j: int)
    requires FirstAccepted(cs, p, i) && FirstAccepted(cs, p, j)
    ensures i == j
  {
  }

  lemma AllRejectCons(c: Context, cs: seq<Context>, p: Probe, i: nat)
    requires Test(p, c) == Reject
    requires i <= |cs| && AllReject(cs[..i], p)
    ensures AllReject(([c] + cs)[..i + 1], p)
  {
  }

  /**
   * Array.prototype.find: the first context in list order that the callback
   * accepts; the search stops at a callback that throws.
   */
  function Find(cs: seq<Context>, p: Probe): (r: Lookup)
    ensures r.Found? ==> Test(p, r.ctx) == Accept
    ensures r.Found? ==> exists i :: 0 <= i < |cs| && cs[i] == r.ctx && AllReject(cs[..i], p)
    ensures r.Raised? ==> exists i :: 0 <= i < |cs| && Test(p, cs[i]) == Throw && AllReject(cs[..i], p)
    ensures r.NotFound? <==> AllReject(cs, p)
    decreases |cs|
  {
    if cs == [] then NotFound
    else
      match Test(p, cs[0])
      case Accept =>
        assert cs[..0] == [];
        Found(cs[0])
      case Throw =>
        assert cs[..0] == [];
        Raised
      case Reject =>
        var r := Find(cs[1..], p);
        FindStep(cs, p, r);
        r
  }

  /** A rejected head extends the facts about the search of the tail to the whole list. */
  lemma FindStep(cs: seq<Context>, p: Probe, r: Lookup)
    requires |cs| > 0 && Test(p, cs[0]) == Reject
    requires r.Found? ==> exists i :: 0 <= i < |cs[1..]| && cs[1..][i] == r.ctx && AllReject(cs[1..][..i], p)
    requires r.Raised? ==> exists i :: 0 <= i < |cs[1..]| && Test(p, cs[1..][i]) == Throw && AllReject(cs[1..][..i], p)
    requires r.NotFound? <==> AllReject(cs[1..], p)
    ensures r.Found? ==> exists i :: 0 <= i < |cs| && cs[i] == r.ctx && AllReject(cs[..i], p)
    ensures r.Raised? ==> exists i :: 0 <= i < |cs| && Test(p, cs[i]) == Throw && AllReject(cs[..i], p)
    ensures r.NotFound? <==> AllReject(cs, p)
  {
    assert cs == [cs[0]] + cs[1..];
    if r.Found? {
      var i :| 0 <= i < |cs[1..]| && cs[1..][i] == r.ctx && AllReject(cs[1..][..i], p);
      AllRejectCons(cs[0], cs[1..], p, i);
    } else if r.Raised? {
      var i :| 0 <= i < |cs[1..]| && Test(p, cs[1..][i]) == Throw && AllReject(cs[1..][..i], p);
      AllRejectCons(cs[0], cs[1..], p, i);
    }
  }

  /** A context the callback passes by does not change what find returns. */
  lemma FindSkipsRejected(c: Context, cs: seq<Context>, p: Probe)
    requires Test(p, c) == Reject
    ensures Find([c] + cs, p) == Find(cs, p)
  {
  }

  /** The amount lookup of transferMoney (functions/index.js:46-48): the inner number of the amount object. */
  function TransferAmount(cs: seq<Context>): (r: Option<int>)
    ensures r.Some? <==> Find(cs, AmountParam).Found?
  {
    var found := Find(cs, AmountParam);
    if found.Found? then found.ctx.amount else None
  }

  /** The destination lookup of transferMoney (functions/index.js:49-51). */
  function TransferTo(cs: seq<Context>): (r: Option<string>)
    ensures r.Some? <==> Find(cs, AccountToParam).Found?
    ensures r.Some? ==> r.value != ""
  {
    var found := Find(cs, AccountToParam);
    if found.Found? then found.ctx.accountTo else None
  }

  /** The source lookup of transferMoney (functions/index.js:52-54): the first element of 'account-from'. */
  function TransferFrom(cs: seq<Context>): (r: Option<string>)
    ensures r.Some? <==> Find(cs, AccountFromParam).Found?
    ensures r.Some? ==> r.value != ""
  {
    var found := Find(cs, AccountFromParam);
    if found.Found? then FirstAccountFrom(found.ctx) else None
  }

  /** The parameters transferMoney reads (functions/index.js:46-54). */
  datatype TransferArgs = TransferArgs(amount: int, accountTo: string, accountFrom: string)

  /**
   * The three lookups of transferMoney. Any lookup that finds nothing or
   * throws makes the request fail (None): in the source either the callback
   * throws or the `.parameters` access on the undefined result does.
   */
  function ParseTransfer(cs: seq<Context>): (r: Option<TransferArgs>)
    ensures r.Some? <==> TransferAmount(cs).Some? && TransferTo(cs).Some? && TransferFrom(cs).Some?
    ensures r.Some? ==> r.value == TransferArgs(TransferAmount(cs).value, TransferTo(cs).value, TransferFrom(cs).value)
    ensures r.Some? ==> r.value.accountTo != "" && r.value.accountFrom != ""
  {
    match (TransferAmount(cs), TransferTo(cs), TransferFrom(cs))
    case (Some(amount), Some(to), Some(from)) => Some(TransferArgs(amount, to, from))
    case _ => None
  }

  /**
   * The lookup of balanceAmountCheck (functions/index.js:100-102): the
   * account name, or None when no context qualifies.
   */
  function ParseAccount(cs: seq<Context>): (r: Option<string>)
    ensures r.Some? <==> Find(cs, AccountParam).Found?
    ensures r.Some? ==> r.value != ""
  {
    var found := Find(cs, AccountParam);
    if found.Found? then found.ctx.account else None
  }

  /** With no context named "transfer" none of the three lookups finds anything. */
  lemma NoTransferContextFails(cs: seq<Context>)
    requires forall i :: 0 <= i < |cs| ==> cs[i].name != "transfer"
    ensures TransferAmount(cs).None? && TransferTo(cs).None? && TransferFrom(cs).None?
    ensures ParseTransfer(cs).None?
  {
  }

  /** With no screen-output context the balance lookup finds nothing. */
  lemma NoScreenContextFails(cs: seq<Context>)
    requires forall i :: 0 <= i < |cs| ==> cs[i].name != "actions_capability_screen_output"
    ensures ParseAccount(cs).None?
  {
  }

  /** The amount is that of the first context the amount callback accepts. */
  lemma TransferAmountProvenance(cs: seq<Context>)
    requires TransferAmount(cs).Some?
    ensures exists i :: FirstAccepted(cs, AmountParam, i) && cs[i].amount == TransferAmount(cs)
  {
  }

  /** The destination is the 'account-to' of the first context the destination callback accepts. */
  lemma TransferToProvenance(cs: seq<Context>)
    requires TransferTo(cs).Some?
    ensures exists i :: FirstAccepted(cs, AccountToParam, i) && cs[i].accountTo == TransferTo(cs)
  {
  }

  /** The source is the first 'account-from' element of the first context the source callback accepts. */
  lemma TransferFromProvenance(cs: seq<Context>)
    requires TransferFrom(cs).Some?
    ensures exists i :: FirstAccepted(cs, AccountFromParam, i) && FirstAccountFrom(cs[i]) == TransferFrom(cs)
  {
  }

  /** The balance-check account is that of the first context the screen-output callback accepts. */
  lemma ParseAccountProvenance(cs: seq<Context>)
    requires ParseAccount(cs).Some?
    ensures exists i :: FirstAccepted(cs, AccountParam, i) && cs[i].account == ParseAccount(cs)
  {
  }
}
