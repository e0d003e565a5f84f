/**
 * The Dialogflow action names (functions/index.js:21-31) and the actionMap
 * that routes each to its handler (functions/index.js:265-275).
 */
module Actions {
  import opened Wrappers

  /** One intent per handler registered in actionMap. */
  datatype Intent =
    | TransactionCheckNoPayment
    | TransactionCheckActionPayment
    | TransactionCheckGooglePayment
    | TransactionCheckComplete
    | DeliveryAddress
    | DeliveryAddressComplete
    | TransactionDecisionActionPayment
    | TransactionDecisionComplete
    | BalanceAmountCheck
    | TransferMoney

  /** The action-name constant of each intent. */
  function ActionName(i: Intent): string
  {
    match i
    case TransactionCheckNoPayment => "transaction.check.no.payment"
    case TransactionCheckActionPayment => "transaction.check.action"
    case TransactionCheckGooglePayment => "transaction.check.google"
    case TransactionCheckComplete => "transaction.check.complete"
    case DeliveryAddress => "delivery.address"
    case DeliveryAddressComplete => "delivery.address.complete"
    case TransactionDecisionActionPayment => "transaction.decision.action"
    case TransactionDecisionComplete => "transaction.decision.complete"
    case BalanceAmountCheck => "account.balance.check"
    case TransferMoney => "transfer.money"
  }

  /** actionMap: the ten action names, each set to its handler. */
  const ActionMap: map<string, Intent> := map[
    "transaction.check.no.payment" := TransactionCheckNoPayment,
    "transaction.check.action" := TransactionCheckActionPayment,
    "transaction.check.google" := TransactionCheckGooglePayment,
    "transaction.check.complete" := TransactionCheckComplete,
    "delivery.address" := DeliveryAddress,
    "delivery.address.complete" := DeliveryAddressComplete,
    "transaction.decision.action" := TransactionDecisionActionPayment,
    "transaction.decision.complete" := TransactionDecisionComplete,
    "account.balance.check" := BalanceAmountCheck,
    "transfer.money" := TransferMoney]

  /** The handler actionMap holds for an action name; None when it holds none. */
  function Route(action: string): (r: Option<Intent>)
    ensures r.Some? ==> ActionName(r.value) == action
    ensures r.None? ==> forall i: Intent :: ActionName(i) != action
  {
    if action in ActionMap then Some(ActionMap[action]) else None
  }

  /** Every intent is reachable: its own action name routes to it. */
  lemma RouteActionName(i: Intent)
    ensures Route(ActionName(i)) == Some(i)
  {
  }
}
