// Chain logs and the decoded events of the Service Rewards Actor.
module Events {
  import opened Positions

  // Addresses are compared after lower-casing; they are taken as already lower-cased.
  type Address = string

  datatype Pair = Pair(payer: Address, operator: Address)

  datatype PricingParams = PricingParams(
    minLotFloor: nat, minLotAlphaNum: nat, minLotAlphaDen: nat, priceBand: nat, registrationCutoff: nat)

  datatype Event =
    | OrchestratorAdmitted(admitted: Address)
    | OrchestratorRemoved(removed: Address)
    | BindingDeclared(pair: Pair, orchestrator: Address)
    | BindingReassigned(pair: Pair, orchestrator: Address, inherit: bool)
    | BindingCanceled(pair: Pair, orchestrator: Address)
    | AdmittedListsUpdated(contracts: seq<Address>, stablecoins: seq<Address>)
    | PricingParamsUpdated(params: PricingParams)
    | SharesSubmitted(quarter: nat, totalUsd: nat)
    // Wallet replacements and volume postings: they touch none of the modelled tables.
    | OtherEvent

  datatype Log<+E> = Log(block: nat, transactionIndex: nat, logIndex: nat, event: E) {
    function At(): Position {
      Position(block, logIndex)
    }
  }

  // Logs in processing order: the position of each is beyond that of the one before.
  ghost predicate Increasing<E>(logs: seq<Log<E>>) {
    forall i, j | 0 <= i < j < |logs| :: logs[i].At().Before(logs[j].At())
  }
}
