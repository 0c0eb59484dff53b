# hardhat-fund-me deployment pipeline, modelled in Dafny

This project models the decision logic of the Hardhat deployment scripts of
hardhat-fund-me. Two deploy scripts run in file order. The first,
`deploy/00-deploy-mock.js`, deploys a `MockV3Aggregator` price feed, and only
on development networks. The second, `deploy/01-deploy-fund-me.js`, resolves
the ETH/USD price-feed address and deploys `FundMe` with it. On live networks
with an Etherscan API key it then submits FundMe to source verification
through `utils/verify.js`. That helper makes one attempt and treats an
"already verified" error as success.

Modules, one per source file or collaborator:

- `Wrappers`: `Option` and `Result`.
- `Text`: ASCII `toLowerCase` and `includes`, with `includes` proved equal to "occurs at some index".
- `HardhatDeploy`: the `deployments` object as a class `Deployments`. It holds the records map, every deploy call issued and the log. It also holds the collaborator types: constructor arguments (`Arg`, including JavaScript `undefined`), deploy outcomes and the faults that make a script reject.
- `Config`: the selected network, the helper-config values and `IsDevelopment`, the development test that both scripts share.
- `Verification`: `verify`, and `Classify`, the classification of an error message.
- `MockStage`: `deploy/00-deploy-mock.js`.
- `FundMeStage`: `deploy/01-deploy-fund-me.js`.
- `Scenarios`: three whole runs (development, live with verification, live without a config entry), checked against the scripts' contracts.

The chain, the Etherscan task, `getNamedAccounts`, `process.env` and
helper-hardhat-config are parameters. A deployment's result is a
`DeployOutcome`, the verification task's result a `TaskResult`, the API key an
`Option<string>`, and the helper values a `HelperConfig`.

In three places the code is weaker than a deployment tool is usually expected to be. The model follows the code each time:

- A live chain id without a `networkConfig` entry is not reported by a dedicated configuration error. Reading a field of `undefined` throws (`NetworkConfigMissing` here). It still happens before any deployment is requested.
- An entry without `ethUsdPriceFeed` is not an error. The FundMe deploy call receives `[undefined]` (`Arg.Undefined`); what the chain makes of it is the `DeployOutcome` parameter.
- The mock script has no get-or-create step of its own. It calls `deploy` on every development run, and the model's `Deploy` stores the new record in place of any old one.

## Model

| member | source | states |
|---|---|---|
| Text.Lower | utils/verify.js:15 | `toLowerCase` keeps the length and lowers each ASCII letter in place |
| Text.Includes | utils/verify.js:15 | `includes` scans the text from the left; a match implies the pattern is no longer than the text |
| Text.IncludesIffOccurs | utils/verify.js:15 | `includes` is true exactly when the pattern occurs at some index of the text |
| Text.LowerIdempotent | utils/verify.js:15 | lowering an already lowered string changes nothing |
| Verification.Classify | utils/verify.js:15-19 | a message is AlreadyVerified iff its lowered form contains "already verified"; any other message is Failed with that message as reason; never Verified |
| Verification.Settle | utils/verify.js:7-20 | a task that returns gives Verified and nothing else does; an error with a string message is classified and caught; only an error whose message is not a string escapes |
| Verification.Verify | utils/verify.js:3-21 | exactly one request with the address and arguments unchanged; the result is Settle of the task; the console shows the "verifying" line, then the already-verified notice or the logged error |
| Verification.CaughtErrorsDoNotEscape | utils/verify.js:12-20 | an error with a string message never propagates out of verify and is never taken for Verified |
| Verification.MarkerInAnyCase | utils/verify.js:15 | a message containing "already verified" in any letter case, with any text before or after it, is classified AlreadyVerified |
| Verification.ClassifyIgnoresCase | utils/verify.js:15 | two messages equal up to letter case take the same AlreadyVerified decision |
| Verification.ClassifyLowered | utils/verify.js:15 | lowering the message first keeps the same AlreadyVerified decision |
| Verification.ClassifyIgnoresSurroundingText | utils/verify.js:15 | text before or after a recognised message keeps it AlreadyVerified |
| Config.IsDevelopment | deploy/01-deploy-fund-me.js:37 | a network is development exactly when its name is one of the entries of `developmentChain`; both scripts use this one test (deploy/00-deploy-mock.js:19, deploy/01-deploy-fund-me.js:60) |
| HardhatDeploy.Deployments.constructor | deploy/01-deploy-fund-me.js:18-22 | the scripts start from a given record store with no calls issued and nothing logged |
| HardhatDeploy.Deployments.Deploy | deploy/01-deploy-fund-me.js:50-55 | one deploy call is appended; on success the record under the name holds the new address and the args; on failure the records are unchanged |
| HardhatDeploy.Deployments.Log | deploy/00-deploy-mock.js:20 | a log line is appended and nothing else changes |
| MockStage.MockRequest | deploy/00-deploy-mock.js:21-28 | the mock deploy call is named MockV3Aggregator, comes from the deployer, has exactly the args [DECIMALS, INITIAL_ANSWER] in that order, and no waitConfirmations option |
| MockStage.DeployMocks | deploy/00-deploy-mock.js:10-35 | on a live network nothing is requested, stored or logged; on a development network exactly one deploy of MockV3Aggregator with [DECIMALS, INITIAL_ANSWER], stored under that name on success, and a rejection when the deployment fails |
| MockStage.MockTagsDeclared | deploy/00-deploy-mock.js:37 | the mock script carries the tags all and mocks, not fundme |
| FundMeStage.DeployFundMe | deploy/01-deploy-fund-me.js:18-69 | resolution fails with no deploy call and no verification; otherwise one FundMe deploy call with [feed] and the confirmation count; verification happens iff the gate holds and receives FundMe's address and the same args, and its result and console lines are those of verify; only an escaping verify error makes the script reject |
| FundMeStage.FeedArg | deploy/01-deploy-fund-me.js:41 | a present config field gives that address, a missing one gives `undefined`, and never a number |
| FundMeStage.ResolvePriceFeed | deploy/01-deploy-fund-me.js:36-42 | the feed choice fails only with a lookup fault: NoDeploymentFound exactly when the network is development and no mock record exists, otherwise NetworkConfigMissing; a development feed is always an address |
| FundMeStage.WaitConfirmations | deploy/01-deploy-fund-me.js:54 | the confirmation count, blockConfirmation or else 1, is never 0 |
| FundMeStage.FundMeRequest | deploy/01-deploy-fund-me.js:48-55 | the FundMe deploy call comes from the deployer with exactly the args [feed], and its waitConfirmations is `WaitConfirmations(blockConfirmation)`, hence non-zero |
| FundMeStage.ShouldVerify | deploy/01-deploy-fund-me.js:59-62 | the verification test holds only on a live network with a set, non-empty API key |
| FundMeStage.ResolveOnDevelopment | deploy/01-deploy-fund-me.js:37-39 | on a development network the feed is the stored mock's address, missing mock is NoDeploymentFound, and networkConfig and chainId are never consulted |
| FundMeStage.ResolveOnLive | deploy/01-deploy-fund-me.js:40-42 | on a live network the feed is exactly the configured ethUsdPriceFeed, undefined when the field is missing, a fault when the chain has no entry, and the records are not consulted |
| FundMeStage.MockRecordFeedsFundMe | deploy/00-deploy-mock.js:21-27 | the record the mock script stores is the one the FundMe script reads back as its feed on a development network |
| FundMeStage.WaitConfirmationsDefault | deploy/01-deploy-fund-me.js:54 | the count is the configured value when set and non-zero, 1 otherwise; never 0; at least 1 for non-negative settings; 3 on rinkeby |
| FundMeStage.VerifyGateTruthTable | deploy/01-deploy-fund-me.js:59-64 | verification is requested only on a live network with a non-empty key; the other three combinations skip it |
| FundMeStage.FundMeTagsDeclared | deploy/01-deploy-fund-me.js:71 | the FundMe script carries the tags all and fundme, not mocks, and only all is shared with the mock script |

## Left out

- Submitting transactions, waiting for confirmations and hardhat-deploy's own `deploy`/`get` internals: their result is a parameter, and the model does not claim the idempotent redeploy that hardhat-deploy may perform.
- The Etherscan `verify:verify` task: its result is the parameter `TaskResult`.
- `getNamedAccounts`, `process.env` and helper-hardhat-config (`developmentChain`, `networkConfig`, `DECIMALS`, `INITIAL_ANSWER`): these are parameters, because helper-hardhat-config is not part of this model.
- Tag dispatch and the order in which scripts run belong to hardhat-deploy. Tags are modelled only as declared data, and `Scenarios` runs the two scripts in file order.
- The deploy options `log: true` (deploy/00-deploy-mock.js:24, deploy/01-deploy-fund-me.js:53) and `contract: "MockV3Aggregator"` (deploy/00-deploy-mock.js:22) are not in `DeployRequest`: `contract` equals the deployment name, and `log` only makes hardhat-deploy print.
- The text of log and console lines: they are named by a datatype constructor, and a logged error by its message.
- Unicode case mapping: `toLowerCase` is modelled on ASCII letters only.
- Concurrency between separate runs, which share no state in the model.
- hardhat.config.js beyond its rinkeby network (chain 4, 3 confirmations), and the Solidity contracts.
- Values the scripts read that are not numbers or strings, such as a non-numeric `blockConfirmation` or chain id: `blockConfirmation` and `chainId` are `Option<int>`.
