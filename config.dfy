/** The configuration the deploy scripts read: the selected network (Hardhat's
    `network`) and the values exported by helper-hardhat-config, which is not
    part of this model and so enters as a parameter. */
module Config {
  import opened Wrappers
  import opened HardhatDeploy

  /** `network.name`, `network.config.chainId` and `network.config.blockConfirmation`. */
  datatype NetworkInfo = NetworkInfo(name: string, chainId: Option<int>, blockConfirmation: Option<int>)

  /** One entry of `networkConfig`; the `ethUsdPriceFeed` field may be missing. */
  datatype ChainConfig = ChainConfig(ethUsdPriceFeed: Option<Address>)

  /** `developmentChain`, `networkConfig`, `DECIMALS` and `INITIAL_ANSWER`. */
  datatype HelperConfig = HelperConfig(
    developmentChain: seq<string>,
    networkConfig: map<int, ChainConfig>,
    decimals: int,
    initialAnswer: int)

  /** `developmentChain.includes(network.name)`, the test both deploy scripts use. */
  predicate IsDevelopment(helper: HelperConfig, net: NetworkInfo)
    ensures IsDevelopment(helper, net) <==>
      exists i :: 0 <= i < |helper.developmentChain| && helper.developmentChain[i] == net.name
  {
    net.name in helper.developmentChain
  }

  /** The one network hardhat.config.js declares: rinkeby, chain 4, three confirmations. */
  const Rinkeby := NetworkInfo("rinkeby", Some(4), Some(3))
}
