/** Whole runs of the two deploy scripts in file order (what the tag `all`
    selects), on concrete networks, checked against the scripts' contracts. */
module Scenarios {
  import opened Wrappers
  import opened HardhatDeploy
  import opened Config
  import opened Verification
  import opened MockStage
  import opened FundMeStage

  const Helper := HelperConfig(["hardhat", "localhost"], map[4 := ChainConfig(Some("0xFeed"))], 8, 200000000000)

  /** Development network: the mock is deployed once, FundMe gets its
      address, and verification is skipped. */
  method DevelopmentRun() {
    var d := new Deployments(map[]);
    var net := NetworkInfo("hardhat", Some(31337), None);
    var s1 := DeployMocks(d, Helper, net, "0xDeployer", Deployed("0xMock"));
    var s2, v := DeployFundMe(d, Helper, net, Some("key"), "0xDeployer", Deployed("0xFundMe"), Succeeded);
    assert s1 == Completed && s2 == Completed && v == None;
    assert d.requests == [
      DeployRequest(MockName, "0xDeployer", [Num(8), Num(200000000000)], None),
      DeployRequest(FundMeName, "0xDeployer", [Addr("0xMock")], Some(1))];
    assert d.records[FundMeName] == Record("0xFundMe", [Addr("0xMock")]);
  }

  /** Live network with a registry entry and an API key: the configured feed
      is used, no mock is deployed, and FundMe is verified. */
  method LiveRun() {
    var d := new Deployments(map[]);
    var s1 := DeployMocks(d, Helper, Rinkeby, "0xDeployer", Deployed("0xMock"));
    var s2, v := DeployFundMe(d, Helper, Rinkeby, Some("key"), "0xDeployer", Deployed("0xFundMe"), Succeeded);
    assert s1 == Completed && s2 == Completed;
    assert d.requests == [DeployRequest(FundMeName, "0xDeployer", [Addr("0xFeed")], Some(3))];
    assert v.Some? && v.value.submitted == [VerifyRequest("0xFundMe", [Addr("0xFeed")])];
    assert v.value.result == Finished(Verified);
  }

  /** Live network without a registry entry: the FundMe script rejects
      before any deployment is requested. */
  method MissingConfigRun() {
    var d := new Deployments(map[]);
    var net := NetworkInfo("goerli", Some(5), None);
    var s1 := DeployMocks(d, Helper, net, "0xDeployer", Deployed("0xMock"));
    var s2, v := DeployFundMe(d, Helper, net, Some("key"), "0xDeployer", Deployed("0xFundMe"), Succeeded);
    assert s1 == Completed && s2 == Aborted(NetworkConfigMissing(Some(5)));
    assert d.requests == [] && v == None;
  }
}
