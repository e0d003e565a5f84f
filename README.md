# Dialogflow transactions webhook: the account ledger

This project models the one part of the Dialogflow transactions sample
webhook that has behaviour to state. The webhook keeps three account
balances in process memory: savings, checking and credit card. Two intent
handlers use them. `transferMoney` reads an amount, a destination and a
source from the request contexts, checks the source's funds, debits it and
credits the destination. `balanceAmountCheck` reports one balance.
`actionMap` routes each Dialogflow action name to its handler.

Modules:

- `Accounts` (accounts.dfy): the account kinds, their names, the three balances
  as integer cents, and the seed values $20.21, $101.22 and $33.42.
- `Contexts` (contexts.dfy): request contexts and the four `find` callbacks. It
  also holds `Find`, the model of `Array.prototype.find`, and the parameter
  extraction of both handlers.
- `Transfers` (transfers.dfy): `TransferSpec`, the ledger effect of a transfer
  as a function of the balances before it, with the transfer properties
  proved as lemmas. `Replay` runs a series of transfers, since the balances
  persist across requests.
- `Actions` (actions.dfy): the ten action-name constants and the `actionMap`
  table, as a closed `Intent` datatype.
- `Webhook` (ledger.dfy): the `Ledger` class. Its three integer fields are
  updated in place by `Transfer`, which follows the two `switch` blocks and is
  proved against `TransferSpec`. The class also holds the two handlers and
  `HandleRequest`. The module defines the confirmation number and the
  balance lookup too.

Modelling decisions:

- Money is integer cents. The amount is an unbounded `int`, because the
  code never checks its sign. A negative amount therefore raises the
  source and lowers the destination, as the code would.
- The funds check is `balance < amount` for all three accounts, the credit
  card included (functions/index.js:72). A credit-card account might be
  expected to allow debt, but the code refuses a debit larger than the
  card's balance; the model follows the code. A transfer into the credit card adds to its
  balance.
- A transfer amount is meant to be positive, but the code never checks it,
  and the model follows the code. A negative amount can therefore drive the
  destination below zero. What is proved instead (`KeepsNonNegative`) is that
  a non-negative amount never draws a non-negative ledger below zero.
- A name that is not an account is kept as the source has it. As a source it
  skips the check and the debit, but the destination is still credited. As a
  destination nothing is credited. In a balance check it reports 0. It is
  not turned into an error.
- JavaScript truthiness in the `find` callbacks is written out:
  - an empty or missing string parameter is passed by;
  - the amount is an object, so it counts whenever present;
  - a `transfer` context with no `account-from` list makes the callback
    throw, since `undefined[0]` is a TypeError. That stops the search even
    when a later context would qualify.
- When a lookup fails, the request ends with a TypeError. If no context
  qualifies, `find` returns undefined and the `.parameters` access that
  follows throws. If the `account-from` callback throws, the TypeError comes
  from the callback itself. In both cases the model answers `Failed` and
  leaves the ledger unchanged.
- The confirmation number is "B" followed by `timestamp.substr(length - 9)`,
  with JavaScript's `substr` rule for a negative start written out. The
  timestamp is a parameter. A timestamp of 5 to 8 characters keeps only its
  last 9 - length characters; one of 4 characters or fewer is kept whole.

## Model

| member | source | states |
|---|---|---|
| `Accounts.Parse` | functions/index.js:56-92 | a name is recognised exactly when it is the name of one of the three accounts, and then it gives that account |
| `Accounts.ParseName` | functions/index.js:56-92 | every account's own name is recognised as that account |
| `Contexts.Test` | functions/index.js:46-54 | each callback throws exactly when the context has the callback's name and reading its parameter throws, and accepts exactly when the context has that name and the parameter read is truthy in the JavaScript sense (a non-empty string or an object); otherwise it passes the context by |
| `Contexts.OnlyAccountFromThrows` | functions/index.js:46-54 | of the callbacks only the 'account-from' one can throw, and only on a "transfer" context that has no 'account-from' list |
| `Contexts.Find` | functions/index.js:46-54 | find returns the first context in list order that the callback accepts, with every earlier context passed by; it reports a throw only at the first context that is not passed by; it finds nothing exactly when every context is passed by |
| `Contexts.FirstAcceptedUnique` | functions/index.js:46-54 | at most one context is the first one a callback accepts, so the context find returns is determined |
| `Contexts.FindSkipsRejected` | functions/index.js:46-54 | a leading context that the callback passes by does not change what find returns |
| `Contexts.TransferAmount` | functions/index.js:46-48 | the amount is found exactly when some context named "transfer" carries an amount object and the search reaches it |
| `Contexts.TransferTo` | functions/index.js:49-51 | the destination is found exactly when the first-match search finds a "transfer" context with a non-empty 'account-to', and it is then non-empty |
| `Contexts.TransferFrom` | functions/index.js:52-54 | the source is found exactly when the first-match search finds a "transfer" context whose 'account-from' list starts with a non-empty name, and it is then non-empty |
| `Contexts.ParseTransfer` | functions/index.js:46-54 | the transfer goes ahead exactly when all three lookups succeed, and then carries the amount, destination and source they found; both account names are non-empty |
| `Contexts.TransferAmountProvenance` | functions/index.js:46-48 | a found amount is the amount of the first context the amount callback accepts, every earlier context being passed by |
| `Contexts.TransferToProvenance` | functions/index.js:49-51 | a found destination is the 'account-to' of the first context the destination callback accepts, every earlier context being passed by |
| `Contexts.TransferFromProvenance` | functions/index.js:52-54 | a found source is the first 'account-from' element of the first context the source callback accepts, every earlier context being passed by |
| `Contexts.NoTransferContextFails` | functions/index.js:46-54 | with no context named "transfer" none of the three lookups finds anything, so the request fails |
| `Contexts.ParseAccount` | functions/index.js:100-102 | the balance-check account is found exactly when the lookup finds a context, and then it is non-empty |
| `Contexts.ParseAccountProvenance` | functions/index.js:100-102 | a found account is the account of the first context the screen-output callback accepts, every earlier context being passed by |
| `Contexts.NoScreenContextFails` | functions/index.js:100-102 | a request with no "actions_capability_screen_output" context fails the balance lookup |
| `Transfers.TransferSpec` | functions/index.js:55-92 | the transfer goes ahead exactly when the source is not an account or holds at least the amount; a refused transfer changes nothing; a transfer that goes ahead moves each account by minus the amount at a recognised source and plus it at a recognised destination |
| `Transfers.InsufficientChangesNothing` | functions/index.js:56-80 | an amount above the balance of a recognised source (savings, checking or credit card) leaves all three balances unchanged and is refused |
| `Transfers.WholeBalanceEmptiesSource` | functions/index.js:56-77 | because the check is strict, a transfer of exactly the source's balance to another account succeeds and leaves the source at zero |
| `Transfers.MovesAmount` | functions/index.js:56-92 | between two distinct accounts with enough funds, the source loses exactly the amount, the destination gains it, and the third account is unchanged |
| `Transfers.SelfTransferChangesNothing` | functions/index.js:56-92 | a transfer from an account to itself leaves every balance unchanged |
| `Transfers.PreservesTotal` | functions/index.js:56-92 | a transfer between recognised accounts keeps the sum of the three balances |
| `Transfers.UnknownSourceOnlyCredits` | functions/index.js:55-92 | an unrecognised source is neither checked nor debited; the transfer succeeds and only the destination gains the amount |
| `Transfers.UnknownDestinationOnlyDebits` | functions/index.js:82-92 | with an unrecognised destination the source is debited and no account is credited |
| `Transfers.TransferBackRestores` | functions/index.js:56-92 | sending the same amount back restores the original balances, provided the destination did not start below zero |
| `Transfers.KeepsNonNegative` | functions/index.js:56-92 | a transfer of a non-negative amount keeps every balance of a non-negative ledger non-negative |
| `Transfers.Replay` | functions/index.js:35-92 | the module-level balances persist across requests: an empty series of transfers leaves them as they were, and a single transfer leaves what that transfer gives |
| `Transfers.ReplayAppend` | functions/index.js:35-92 | replaying one series of requests and then another is the same as replaying the two in a row, so each request starts from the balances the previous one left |
| `Transfers.ReplayPreservesTotal` | functions/index.js:35-92 | any series of transfers between recognised accounts, applied to the persisting balances, keeps their total |
| `Transfers.ReplayKeepsNonNegative` | functions/index.js:35-92 | any series of non-negative transfers keeps a non-negative ledger non-negative |
| `Transfers.SeedExample` | functions/index.js:35-92 | from the seed balances, $10.00 from checking to savings leaves savings at $30.21, checking at $91.22 and the credit card at $33.42 |
| `Actions.Route` | functions/index.js:265-275 | an action name routes to an intent only if it is that intent's constant, and routes nowhere when it is no intent's constant |
| `Actions.RouteActionName` | functions/index.js:21-31 | each of the ten action constants routes to its own handler |
| `Webhook.JsSubstr` | functions/index.js:93-94 | substr returns a suffix of the string; its length is what remains after a non-negative start, or the negated start for a negative start, capped at the string's length |
| `Webhook.Confirmation` | functions/index.js:93-94 | the confirmation starts with 'B'; for a timestamp of at least nine characters it is 'B' followed by the last nine; for one of 5 to 8 characters it is 'B' followed by the last 9 - length; for one of 4 or fewer it is 'B' followed by the whole timestamp; for an all-digit timestamp it is 'B' followed by digits |
| `Webhook.ConfirmationExample` | functions/index.js:93-94 | a thirteen-digit timestamp gives 'B' followed by its last nine digits |
| `Webhook.TinyTimestampKeptWhole` | functions/index.js:93-94 | a timestamp of at most four characters appears whole after the 'B' |
| `Webhook.ShortTimestampExample` | functions/index.js:93-94 | a five-character timestamp gives 'B' followed by its last four characters |
| `Webhook.BalanceAmount` | functions/index.js:99-114 | a balance-check name gives the balance of the account it names, with "chequing account" naming checking; any other name gives 0 |
| `Webhook.ChequingIsChecking` | functions/index.js:107-109 | "chequing account" and "checking account" report the same balance, the checking balance |
| `Webhook.Ledger.constructor` | functions/index.js:35-37 | a new ledger holds 2021, 10122 and 3342 cents |
| `Webhook.Ledger.Transfer` | functions/index.js:55-92 | the in-place switch code leaves the fields equal to the result of the transfer function on the old balances, and returns its balanceEnough flag |
| `Webhook.Ledger.TransferMoney` | functions/index.js:44-96 | if a lookup fails, the reply is a failure and the ledger is unchanged; otherwise the ledger is transferred and the reply names the source when funds are short, or carries the confirmation number |
| `Webhook.Ledger.BalanceAmountCheck` | functions/index.js:98-116 | the reply is a failure exactly when no context carries the account; otherwise it is the named account's balance, or 0 for a name that is no account |
| `Webhook.Ledger.HandleRequest` | functions/index.js:265-277 | only transfer.money changes the ledger; an action outside the table gets no handler; account.balance.check gives the balance reply; transfer.money behaves as TransferMoney; the other eight actions are handed to the conversation SDK |

## Left out

- The transaction, delivery-address and order handlers (functions/index.js:118-263) only call the conversation SDK. They are modelled only as the `Delegated` reply.
- What `app.handleRequest` does with an action that has no handler is SDK behaviour. It is modelled only as the `NoHandler` reply.
- The HTTP trigger, the `DialogflowApp` construction, `app.ask` and `app.tell` are I/O. Replies are a datatype, not speech text. So the refusal text's wording, including its "don'" typo, is not modelled. Nor is the dollar formatting of the balance.
- The clock: `Date.now()` becomes a timestamp string passed in by the caller.
- `console.log` calls are left out. The log at functions/index.js:45 would throw on an empty context list. Every lookup then finds nothing anyway, so the model's `Failed` reply is still what results.
- JavaScript number arithmetic is not modelled. Balances are exact integer cents, with no floating-point drift and no NaN. An amount object without its inner number is not represented.
- Every context is assumed to carry a `parameters` object, and each parameter has the type the agent sends. Contexts of other shapes are not represented.
- Concurrency: requests are taken one at a time, as the single-threaded handler runs them.
