/** The slice of hardhat-deploy that the deploy scripts use: the deployment
    records kept per network, the `deploy` call that adds one, and `log`.
    Submitting the transaction and waiting for its confirmations happen on
    the chain; their result is a parameter (`DeployOutcome`). */
module HardhatDeploy {
  import opened Wrappers

  type Address = string

  /** A constructor argument as the scripts pass it: a number, an address, or
      JavaScript's `undefined` (what reading a missing config field yields). */
  datatype Arg = Num(n: int) | Addr(address: Address) | Undefined

  /** One call `deploy(name, { from, args, waitConfirmations })`; `None` for
      `waitConfirmations` means the option was not given. */
  datatype DeployRequest = DeployRequest(
    name: string,
    from: Address,
    args: seq<Arg>,
    waitConfirmations: Option<int>)

  /** What hardhat-deploy keeps for a deployed contract. */
  datatype Record = Record(address: Address, args: seq<Arg>)

  /** What the chain made of a deployment transaction. */
  datatype DeployOutcome = Deployed(address: Address) | Rejected(reason: string)

  /** The lines the scripts print through `log`. */
  datatype LogLine = LocalNetworkDetected | MocksDeployed | Separator

  /** Why a deploy script's promise rejects. */
  datatype Fault =
    | NoDeploymentFound(name: string)          // `get(name)` with no record under `name`
    // `networkConfig[chainId]` is undefined and reading a field of it throws a
    // TypeError; the chain id is kept for the model's own bookkeeping, the
    // error the code raises does not name it.
    | NetworkConfigMissing(chainId: Option<int>)
    | DeployFailed(name: string, reason: string) // the deployment transaction failed
    | VerifyThrew                               // an error escaped `verify`

  /** How one deploy script ends: its promise resolves or rejects. */
  datatype StageResult = Completed | Aborted(fault: Fault)

  /** The `deployments` object handed to each deploy script. */
  class Deployments {
    /** Deployment records by contract name (what `get` reads). */
    var records: map<string, Record>
    /** Every `deploy` call issued so far, in order. */
    var requests: seq<DeployRequest>
    var log: seq<LogLine>

    constructor (existing: map<string, Record>)
      ensures records == existing && requests == [] && log == []
    {
      records := existing;
      requests := [];
      log := [];
    }

    /** `deploy(req.name, ...)`: one request to the chain; on success the
        record under `req.name` becomes the new address with `req.args`. */
    method Deploy(req: DeployRequest, outcome: DeployOutcome) returns (address: Option<Address>)
      modifies this
      ensures requests == old(requests) + [req]
      ensures log == old(log)
      ensures outcome.Deployed? ==>
        address == Some(outcome.address) &&
        records == old(records)[req.name := Record(outcome.address, req.args)]
      ensures outcome.Rejected? ==> address == None && records == old(records)
    {
      requests := requests + [req];
      match outcome
      case Deployed(a) =>
        records := records[req.name := Record(a, req.args)];
        address := Some(a);
      case Rejected(_) =>
        address := None;
    }

    /** `log(line)`. */
    method Log(line: LogLine)
      modifies this
      ensures log == old(log) + [line]
      ensures records == old(records) && requests == old(requests)
    {
      log := log + [line];
    }
  }
}
