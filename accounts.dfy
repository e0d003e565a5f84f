/**
 * The three account balances the webhook keeps in process memory
 * (functions/index.js:35-37), as integer cents.
 */
module Accounts {
  import opened Wrappers

  /** The account kinds the handlers recognise. */
  datatype Account = Savings | Checking | CreditCard

  /** One value per account, in cents: savings, checking and credit card. */
  datatype Balances = Balances(savings: int, checking: int, creditCard: int)

  /** The balances at process start: $20.21, $101.22 and $33.42. */
  const Seed: Balances := Balances(2021, 10122, 3342)

  /** The name the conversational agent uses for each account. */
  function Name(a: Account): string
  {
    match a
    case Savings => "savings account"
    case Checking => "checking account"
    case CreditCard => "credit card account"
  }

  /** The account a name stands for, as the transfer handler's switches decide it. */
  function Parse(name: string): (r: Option<Account>)
    ensures r.Some? ==> Name(r.value) == name
    ensures r.None? ==> forall a: Account :: Name(a) != name
  {
    if name == "savings account" then Some(Savings)
    else if name == "checking account" then Some(Checking)
    else if name == "credit card account" then Some(CreditCard)
    else None
  }

  /** Parsing the name of an account gives that account back. */
  lemma ParseName(a: Account)
    ensures Parse(Name(a)) == Some(a)
  {
  }

  function Get(b: Balances, a: Account): int
  {
    match a
    case Savings => b.savings
    case Checking => b.checking
    case CreditCard => b.creditCard
  }

  /** The balances with account a set to v and the other two as they were. */
  function Put(b: Balances, a: Account, v: int): (r: Balances)
    ensures Get(r, a) == v
    ensures forall o: Account :: o != a ==> Get(r, o) == Get(b, o)
  {
    match a
    case Savings => b.(savings := v)
    case Checking => b.(checking := v)
    case CreditCard => b.(creditCard := v)
  }

  /** The sum of the three balances. */
  function Total(b: Balances): int
  {
    Get(b, Savings) + Get(b, Checking) + Get(b, CreditCard)
  }

  ghost predicate NonNegative(b: Balances)
  {
    forall a: Account :: Get(b, a) >= 0
  }
}
