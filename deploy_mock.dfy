/** deploy/00-deploy-mock.js: deploys the MockV3Aggregator price feed, and
    only on development networks, where no real feed exists. */
module MockStage {
  import opened Wrappers
  import opened HardhatDeploy
  import opened Config

  /** The name the mock is deployed and stored under. */
  const MockName := "MockV3Aggregator"

  /** `module.exports.tags`. */
  const MockTags: seq<string> := ["all", "mocks"]

  /** The deploy call the script issues: `[DECIMALS, INITIAL_ANSWER]` as
      constructor arguments and no `waitConfirmations` option. */
  function MockRequest(helper: HelperConfig, deployer: Address): (r: DeployRequest)
    ensures r.name == MockName && r.from == deployer && r.waitConfirmations == None
    ensures |r.args| == 2 && r.args[0] == Num(helper.decimals) && r.args[1] == Num(helper.initialAnswer)
  {
    DeployRequest(MockName, deployer, [Num(helper.decimals), Num(helper.initialAnswer)], None)
  }

  /** The exported deploy function. `chain` is what the chain makes of the
      mock's deployment transaction, should one be sent. */
  method DeployMocks(d: Deployments, helper: HelperConfig, net: NetworkInfo, deployer: Address, chain: DeployOutcome)
    returns (status: StageResult)
    modifies d
    ensures !IsDevelopment(helper, net) ==>
      status == Completed &&
      d.records == old(d.records) && d.requests == old(d.requests) && d.log == old(d.log)
    ensures IsDevelopment(helper, net) ==>
      d.requests == old(d.requests) + [MockRequest(helper, deployer)]
    ensures IsDevelopment(helper, net) && chain.Deployed? ==>
      status == Completed &&
      d.records == old(d.records)[MockName := Record(chain.address, [Num(helper.decimals), Num(helper.initialAnswer)])] &&
      d.log == old(d.log) + [LocalNetworkDetected, MocksDeployed, Separator]
    ensures IsDevelopment(helper, net) && chain.Rejected? ==>
      status == Aborted(DeployFailed(MockName, chain.reason)) &&
      d.records == old(d.records) &&
      d.log == old(d.log) + [LocalNetworkDetected]
  {
    status := Completed;
    if IsDevelopment(helper, net) {
      d.Log(LocalNetworkDetected);
      var address := d.Deploy(MockRequest(helper, deployer), chain);
      if address.None? {
        return Aborted(DeployFailed(MockName, chain.reason));
      }
      d.Log(MocksDeployed);
      d.Log(Separator);
    }
  }

  /** The script is selected by the tags `all` and `mocks`, not by `fundme`. */
  lemma MockTagsDeclared()
    ensures "all" in MockTags && "mocks" in MockTags && "fundme" !in MockTags
  {
  }
}
