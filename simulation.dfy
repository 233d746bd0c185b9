/** The approval simulation hook: whether the sell token's allowance for the swap
    router covers the amount, and the `approve` parameters when it does not. */
module Simulation {
  import opened Wrappers
  import opened Decimal
  import opened Chains
  import opened Api
  import Erc20

  /** What the swap router must be allowed to spend. */
  datatype ApproveData = ApproveData(spender: string, contract: string, amount: int)

  datatype SimulationParams = SimulationParams(
    quote: Option<QuoteRoute>,
    fromToken: Option<Token>,
    amount: string,
    sourceAddress: Option<string>)

  datatype SimulationData = SimulationData(needsApproval: bool, approveData: Option<ApproveData>, currentAllowance: Option<nat>)

  const NoApproval := SimulationData(false, None, None)

  /** The arguments of the `getAllowance` call: token, owner, spender, RPC endpoint. */
  datatype AllowanceCall = AllowanceCall(token: string, owner: string, spender: string, rpcUrl: string)

  /** `isEnabled`: a quote, an ERC-20 sell token, a positive amount, a source address, and
      a sell chain in the EVM list. */
  predicate SimulationEnabled(p: SimulationParams)
  {
    p.quote.Some? && p.fromToken.Some? && Truthy(p.fromToken.value.address) && p.amount != "" &&
    IsPositiveNumber(p.amount) && Truthy(p.sourceAddress) && p.fromToken.value.chain in EvmChains
  }

  /** The allowance lookup the query function makes, or `None` where it returns "no
      approval" straight away (missing inputs, no RPC endpoint, no approval address). */
  function AllowanceLookup(p: SimulationParams): (r: Option<AllowanceCall>)
    ensures r.Some? <==> p.quote.Some? && p.fromToken.Some? && Truthy(p.fromToken.value.address) &&
                         p.amount != "" && Truthy(p.sourceAddress) &&
                         RpcUrl(p.fromToken.value.chain).Some? && Truthy(p.quote.value.approvalAddress)
    ensures r.Some? ==> r.value == AllowanceCall(p.fromToken.value.address.value, p.sourceAddress.value,
                                                 p.quote.value.approvalAddress.value, RpcUrl(p.fromToken.value.chain).value)
  {
    if p.quote.None? || p.fromToken.None? || !Truthy(p.fromToken.value.address) || p.amount == "" || !Truthy(p.sourceAddress) then None
    else
      var rpcUrl := RpcUrl(p.fromToken.value.chain);
      var spender := p.quote.value.approvalAddress;
      if rpcUrl.None? || !Truthy(spender) then None
      else Some(AllowanceCall(p.fromToken.value.address.value, p.sourceAddress.value, spender.value, rpcUrl.value))
  }

  /** One run of the query function given the allowance the node returned; `Err` where
      the lookup or parseUnits throws. */
  function RunSimulation(p: SimulationParams, allowance: Async<nat>): (r: Result<SimulationData>)
    ensures AllowanceLookup(p).None? ==> r == Ok(NoApproval)
    ensures r.Ok? && r.value.approveData.Some? ==> r.value.needsApproval
    ensures AllowanceLookup(p).Some? && allowance.Threw? ==> r == Err(allowance.message)
    ensures AllowanceLookup(p).Some? && allowance.Done? && Units(p.amount, p.fromToken.value.decimals).None? ==>
      r == Err(UnitsErrorMessage)
  {
    match AllowanceLookup(p)
    case None => Ok(NoApproval)
    case Some(call) =>
      match allowance
      case Threw(m) => Err(m)
      case Done(current) =>
        match Units(p.amount, p.fromToken.value.decimals)
        case None => Err(UnitsErrorMessage)
        case Some(required) =>
          var needsApproval := current < required;
          Ok(SimulationData(needsApproval,
            if needsApproval then Some(ApproveData(call.spender, call.token, required)) else None,
            Some(current)))
  }

  /** Approval is needed exactly when the allowance is below the amount in minor units,
      compared exactly; then `approveData` names the spender, the token contract and
      that amount, and otherwise it is `null`. */
  lemma NeedsApprovalExactly(p: SimulationParams, current: nat)
    requires AllowanceLookup(p).Some? && Units(p.amount, p.fromToken.value.decimals).Some?
    ensures var required := Units(p.amount, p.fromToken.value.decimals).value;
            var r := RunSimulation(p, Done(current));
            r.Ok? && (r.value.needsApproval <==> current < required) &&
            (r.value.approveData.Some? <==> r.value.needsApproval) &&
            (r.value.needsApproval ==> (r.value.approveData.value ==
                                        ApproveData(p.quote.value.approvalAddress.value, p.fromToken.value.address.value, required)))
  {
  }

  /** A native coin never needs an approval and never triggers a lookup. */
  lemma NativeTokenNeedsNoApproval(p: SimulationParams, allowance: Async<nat>)
    requires p.fromToken.Some? && Erc20.IsNativeToken(p.fromToken.value)
    ensures !SimulationEnabled(p)
    ensures RunSimulation(p, allowance) == Ok(NoApproval)
  {
  }

  /** Whenever the hook is enabled, the only reasons it skips the lookup are a missing
      approval address (every EVM chain has an RPC endpoint). */
  lemma EnabledLooksUpUnlessNoSpender(p: SimulationParams)
    requires SimulationEnabled(p)
    ensures AllowanceLookup(p).Some? <==> Truthy(p.quote.value.approvalAddress)
  {
  }

  /** What the hook exposes: the last data, or "no approval" before any result. */
  function Exposed(data: Option<SimulationData>): (r: (bool, Option<ApproveData>))
    ensures data.None? ==> r == (false, None)
    ensures data.Some? ==> r == (data.value.needsApproval, data.value.approveData)
  {
    match data
    case None => (false, None)
    case Some(d) => (d.needsApproval, d.approveData)
  }
}
