/** deploy/01-deploy-fund-me.js: resolves the ETH/USD price-feed address for
    the selected network, deploys FundMe with it, and submits FundMe to
    Etherscan verification on live networks when an API key is set. */
module FundMeStage {
  import opened Wrappers
  import opened HardhatDeploy
  import opened Config
  import opened Verification
  import opened MockStage

  const FundMeName := "FundMe"

  /** `module.exports.tags`. */
  const FundMeTags: seq<string> := ["all", "fundme"]

  /** What the script keeps of its call to `verify`. */
  datatype VerifyReport = VerifyReport(submitted: seq<VerifyRequest>, result: VerifyResult, console: seq<ConsoleLine>)

  /** The value of a config field read as JavaScript reads it: a missing
      field is `undefined`. */
  function FeedArg(field: Option<Address>): (r: Arg)
    ensures !r.Num?
    ensures r == Undefined <==> field.None?
    ensures field.Some? ==> r.address == field.value
  {
    match field
    case Some(a) => Addr(a)
    case None => Undefined
  }

  /** The if/else that assigns `ethUsdPriceFeedAddress`. On a development
      network it is the address of the stored mock (`get` throws when there
      is none); otherwise it is the `ethUsdPriceFeed` field of
      `networkConfig[chainId]`, and reading a field of a missing entry throws. */
  function ResolvePriceFeed(helper: HelperConfig, net: NetworkInfo, records: map<string, Record>): (r: Result<Arg, Fault>)
    ensures r.Err? ==> r.error.NoDeploymentFound? || r.error.NetworkConfigMissing?
    ensures r.Err? && r.error.NoDeploymentFound? <==> IsDevelopment(helper, net) && MockName !in records
    ensures r.Ok? ==> !r.value.Num?
    ensures r.Ok? && IsDevelopment(helper, net) ==> r.value.Addr?
  {
    if IsDevelopment(helper, net) then
      if MockName in records then Ok(Addr(records[MockName].address))
      else Err(NoDeploymentFound(MockName))
    else
      match net.chainId
      case Some(id) =>
        if id in helper.networkConfig then Ok(FeedArg(helper.networkConfig[id].ethUsdPriceFeed))
        else Err(NetworkConfigMissing(net.chainId))
      case None => Err(NetworkConfigMissing(None))
  }

  /** `network.config.blockConfirmation || 1`: an absent or zero setting is
      falsy and becomes 1; any other number is kept. */
  function WaitConfirmations(blockConfirmation: Option<int>): (n: int)
    ensures n != 0
  {
    if blockConfirmation.Some? && blockConfirmation.value != 0 then blockConfirmation.value else 1
  }

  /** The FundMe deploy call: the resolved feed as the only constructor
      argument, and the confirmation count. */
  function FundMeRequest(deployer: Address, feed: Arg, net: NetworkInfo): (r: DeployRequest)
    ensures r.name == FundMeName && r.from == deployer && r.args == [feed]
    ensures r.waitConfirmations == Some(WaitConfirmations(net.blockConfirmation))
    ensures r.waitConfirmations.Some? && r.waitConfirmations.value != 0
  {
    DeployRequest(FundMeName, deployer, [feed], Some(WaitConfirmations(net.blockConfirmation)))
  }

  /** `!developmentChain.includes(network.name) && process.env.ETHERSCAN_API_KEY`:
      the empty string is falsy, like an unset variable. */
  predicate ShouldVerify(helper: HelperConfig, net: NetworkInfo, etherscanApiKey: Option<string>)
    ensures ShouldVerify(helper, net, etherscanApiKey) ==> !IsDevelopment(helper, net)
    ensures ShouldVerify(helper, net, etherscanApiKey) ==> etherscanApiKey.Some? && |etherscanApiKey.value| > 0
  {
    !IsDevelopment(helper, net) && etherscanApiKey.Some? && etherscanApiKey.value != ""
  }

  /** The exported deploy function. `chain` is what the chain makes of the
      FundMe deployment and `etherscan` what the verification task does,
      should either be reached. */
  method DeployFundMe(
    d: Deployments, helper: HelperConfig, net: NetworkInfo, etherscanApiKey: Option<string>,
    deployer: Address, chain: DeployOutcome, etherscan: TaskResult)
    returns (status: StageResult, verification: Option<VerifyReport>)
    modifies d
    ensures var feed := ResolvePriceFeed(helper, net, old(d.records));
      feed.Err? ==>
        status == Aborted(feed.error) && verification == None &&
        d.records == old(d.records) && d.requests == old(d.requests) && d.log == old(d.log)
    ensures var feed := ResolvePriceFeed(helper, net, old(d.records));
      feed.Ok? ==> d.requests == old(d.requests) + [FundMeRequest(deployer, feed.value, net)]
    ensures var feed := ResolvePriceFeed(helper, net, old(d.records));
      feed.Ok? && chain.Rejected? ==>
        status == Aborted(DeployFailed(FundMeName, chain.reason)) && verification == None &&
        d.records == old(d.records) && d.log == old(d.log)
    ensures var feed := ResolvePriceFeed(helper, net, old(d.records));
      feed.Ok? && chain.Deployed? ==>
        d.records == old(d.records)[FundMeName := Record(chain.address, [feed.value])] &&
        (verification.Some? <==> ShouldVerify(helper, net, etherscanApiKey)) &&
        (verification.Some? ==>
          verification.value.submitted == [VerifyRequest(chain.address, [feed.value])] &&
          verification.value.result == Settle(etherscan) &&
          (verification.value.result == Finished(AlreadyVerified) ==>
            verification.value.console == [VerifyingContract, AlreadyVerifiedNotice]) &&
          (forall m :: verification.value.result == Finished(Failed(m)) ==>
            verification.value.console == [VerifyingContract, ErrorLogged(m)]) &&
          (verification.value.result == Finished(Verified) || verification.value.result == Escaped ==>
            verification.value.console == [VerifyingContract])) &&
        (if verification.Some? && verification.value.result == Escaped
         then status == Aborted(VerifyThrew) && d.log == old(d.log)
         else status == Completed && d.log == old(d.log) + [Separator])
  {
    verification := None;
    var feed := ResolvePriceFeed(helper, net, d.records);
    if feed.Err? {
      return Aborted(feed.error), None;
    }
    var args := [feed.value];
    var fundMe := d.Deploy(FundMeRequest(deployer, feed.value, net), chain);
    if fundMe.None? {
      return Aborted(DeployFailed(FundMeName, chain.reason)), None;
    }
    if ShouldVerify(helper, net, etherscanApiKey) {
      var submitted, result, console := Verify(fundMe.value, args, etherscan);
      verification := Some(VerifyReport(submitted, result, console));
      if result == Escaped {
        return Aborted(VerifyThrew), verification;
      }
    }
    d.Log(Separator);
    status := Completed;
  }

  /** On a development network the feed is the stored mock's address, and
      neither `networkConfig` nor the chain id is consulted. */
  lemma ResolveOnDevelopment(
    helper: HelperConfig, net: NetworkInfo, records: map<string, Record>,
    otherConfig: map<int, ChainConfig>, otherChainId: Option<int>)
    requires IsDevelopment(helper, net)
    ensures MockName in records ==>
      ResolvePriceFeed(helper, net, records) == Ok(Addr(records[MockName].address))
    ensures MockName !in records ==>
      ResolvePriceFeed(helper, net, records) == Err(NoDeploymentFound(MockName))
    ensures ResolvePriceFeed(helper.(networkConfig := otherConfig), net.(chainId := otherChainId), records)
         == ResolvePriceFeed(helper, net, records)
  {
  }

  /** On a live network the feed is exactly the configured field (`undefined`
      when the entry lacks it), a chain without an entry is a fault, and the
      deployment records are not consulted. */
  lemma ResolveOnLive(
    helper: HelperConfig, net: NetworkInfo, records: map<string, Record>, otherRecords: map<string, Record>)
    requires !IsDevelopment(helper, net)
    ensures net.chainId.Some? && net.chainId.value in helper.networkConfig ==>
      var entry := helper.networkConfig[net.chainId.value];
      (entry.ethUsdPriceFeed.Some? ==> ResolvePriceFeed(helper, net, records) == Ok(Addr(entry.ethUsdPriceFeed.value))) &&
      (entry.ethUsdPriceFeed.None? ==> ResolvePriceFeed(helper, net, records) == Ok(Undefined))
    ensures net.chainId.None? || net.chainId.value !in helper.networkConfig ==>
      ResolvePriceFeed(helper, net, records) == Err(NetworkConfigMissing(net.chainId))
    ensures ResolvePriceFeed(helper, net, otherRecords) == ResolvePriceFeed(helper, net, records)
  {
  }

  /** The record the mock stage stores is the one this stage reads back: on a
      development network, after the mock is deployed at `address`, the feed
      resolves to `address`. */
  lemma MockRecordFeedsFundMe(
    helper: HelperConfig, net: NetworkInfo, records: map<string, Record>, deployer: Address, address: Address)
    requires IsDevelopment(helper, net)
    ensures ResolvePriceFeed(helper, net, records[MockRequest(helper, deployer).name := Record(address, MockRequest(helper, deployer).args)])
         == Ok(Addr(address))
  {
  }

  /** The confirmation count is the configured one when it is set and
      non-zero, 1 otherwise, so never 0, and at least 1 for any
      non-negative setting; the rinkeby network waits for 3. */
  lemma WaitConfirmationsDefault(blockConfirmation: Option<int>)
    ensures WaitConfirmations(blockConfirmation) != 0
    ensures blockConfirmation.Some? && blockConfirmation.value != 0 ==>
      WaitConfirmations(blockConfirmation) == blockConfirmation.value
    ensures blockConfirmation == None || blockConfirmation == Some(0) ==> WaitConfirmations(blockConfirmation) == 1
    ensures (blockConfirmation.None? || blockConfirmation.value >= 0) ==> WaitConfirmations(blockConfirmation) >= 1
    ensures WaitConfirmations(Rinkeby.blockConfirmation) == 3
  {
  }

  /** Verification is requested in exactly one of the four combinations of
      development/live and key set/unset: live with a non-empty key. */
  lemma VerifyGateTruthTable(helper: HelperConfig, net: NetworkInfo, key: string)
    ensures IsDevelopment(helper, net) ==> !ShouldVerify(helper, net, Some(key)) && !ShouldVerify(helper, net, None)
    ensures !IsDevelopment(helper, net) ==> !ShouldVerify(helper, net, None) && !ShouldVerify(helper, net, Some(""))
    ensures !IsDevelopment(helper, net) && key != "" ==> ShouldVerify(helper, net, Some(key))
  {
  }

  /** The script is selected by the tags `all` and `fundme`, not by `mocks`;
      `all` selects both scripts. */
  lemma FundMeTagsDeclared()
    ensures "all" in FundMeTags && "fundme" in FundMeTags && "mocks" !in FundMeTags
    ensures "fundme" !in MockTags && "all" in MockTags
  {
  }
}
