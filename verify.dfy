/** `verify(contractAddress, args)` from utils/verify.js: one request to the
    Etherscan `verify:verify` task, with an "already verified" error taken
    as success and every other error logged and swallowed. The task itself
    is an external service; what it did is the parameter `TaskResult`. */
module Verification {
  import opened Text
  import opened HardhatDeploy

  /** The options passed to `run("verify:verify", ...)`. */
  datatype VerifyRequest = VerifyRequest(address: Address, constructorArguments: seq<Arg>)

  /** A thrown value: an error whose `message` is a string, or one whose
      `message` is not (so `e.message.toLowerCase()` throws in turn). */
  datatype Thrown = ErrorWithMessage(message: string) | MessageNotAString

  /** What the `verify:verify` task did. */
  datatype TaskResult = Succeeded | Threw(error: Thrown)

  datatype VerificationOutcome = Verified | AlreadyVerified | Failed(reason: string)

  /** How `verify` ends: its promise resolves with an outcome, or the catch
      block itself throws and the error escapes. */
  datatype VerifyResult = Finished(outcome: VerificationOutcome) | Escaped

  /** The console lines `verify` prints. */
  datatype ConsoleLine = VerifyingContract | AlreadyVerifiedNotice | ErrorLogged(message: string)

  const AlreadyVerifiedMarker := "already verified"

  /** The catch block's test on a thrown error's message. */
  function Classify(message: string): (o: VerificationOutcome)
    ensures o == AlreadyVerified <==> exists i :: OccursAt(AlreadyVerifiedMarker, Lower(message), i)
    ensures o != AlreadyVerified ==> o == Failed(message)
  {
    IncludesIffOccurs(Lower(message), AlreadyVerifiedMarker);
    if Includes(Lower(message), AlreadyVerifiedMarker) then
      assert exists i :: OccursAt(AlreadyVerifiedMarker, Lower(message), i);
      AlreadyVerified
    else Failed(message)
  }

  /** What the try/catch makes of the task's result. */
  function Settle(task: TaskResult): (r: VerifyResult)
    ensures r == Finished(Verified) <==> task == Succeeded
    ensures task.Threw? && task.error.ErrorWithMessage? ==> r == Finished(Classify(task.error.message))
    ensures r == Escaped <==> task == Threw(MessageNotAString)
  {
    match task
    case Succeeded => Finished(Verified)
    case Threw(ErrorWithMessage(m)) => Finished(Classify(m))
    case Threw(MessageNotAString) => Escaped
  }

  /** `verify(contractAddress, args)`: submits exactly one request carrying
      the address and the arguments unchanged, and never retries. */
  method Verify(contractAddress: Address, args: seq<Arg>, task: TaskResult)
    returns (submitted: seq<VerifyRequest>, result: VerifyResult, console: seq<ConsoleLine>)
    ensures submitted == [VerifyRequest(contractAddress, args)]
    ensures result == Settle(task)
    ensures result == Finished(AlreadyVerified) ==> console == [VerifyingContract, AlreadyVerifiedNotice]
    ensures forall m :: result == Finished(Failed(m)) ==> console == [VerifyingContract, ErrorLogged(m)]
    ensures result == Finished(Verified) || result == Escaped ==> console == [VerifyingContract]
  {
    console := [VerifyingContract];
    submitted := [VerifyRequest(contractAddress, args)];
    match task {
      case Succeeded =>
        result := Finished(Verified);
      case Threw(ErrorWithMessage(m)) =>
        if Includes(Lower(m), AlreadyVerifiedMarker) {
          console := console + [AlreadyVerifiedNotice];
          result := Finished(AlreadyVerified);
        } else {
          console := console + [ErrorLogged(m)];
          result := Finished(Failed(m));
        }
      case Threw(MessageNotAString) =>
        result := Escaped;
    }
  }

  /** Any error with a string message is caught: `verify` never rejects for it. */
  lemma CaughtErrorsDoNotEscape(m: string)
    ensures Settle(Threw(ErrorWithMessage(m))).Finished?
    ensures Settle(Threw(ErrorWithMessage(m))).outcome != Verified
  {
  }

  /** A message containing the marker in any letter case, with any text
      around it, is recognised. */
  lemma MarkerInAnyCase(pre: string, m: string, post: string)
    requires Lower(m) == AlreadyVerifiedMarker
    ensures Classify(pre + m + post) == AlreadyVerified
  {
    assert OccursAt(AlreadyVerifiedMarker, Lower(m), 0);
    ClassifyIgnoresSurroundingText(pre, m, post);
  }

  /** Messages that agree once lowered are classified alike. */
  lemma ClassifyIgnoresCase(m1: string, m2: string)
    requires Lower(m1) == Lower(m2)
    ensures Classify(m1) == AlreadyVerified <==> Classify(m2) == AlreadyVerified
  {
  }

  /** Lowering the message first changes nothing, as lowering is idempotent. */
  lemma ClassifyLowered(m: string)
    ensures Classify(Lower(m)) == AlreadyVerified <==> Classify(m) == AlreadyVerified
  {
    LowerIdempotent(m);
  }

  /** Text before or after the marker does not change the outcome. */
  lemma ClassifyIgnoresSurroundingText(pre: string, m: string, post: string)
    requires Classify(m) == AlreadyVerified
    ensures Classify(pre + m + post) == AlreadyVerified
  {
    var i :| OccursAt(AlreadyVerifiedMarker, Lower(m), i);
    LowerAppend(pre + m, post);
    LowerAppend(pre, m);
    OccursInContext(AlreadyVerifiedMarker, Lower(pre), Lower(m), Lower(post), i);
  }
}
