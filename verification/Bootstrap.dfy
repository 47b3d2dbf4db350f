/** `setup_ssh_connection`: the trust bootstrap that installs the local public key
    on the remote account with a one-time password and then checks, with the key
    alone, that the remote account accepts it. Each external step is an outcome
    given to the model; the decision chain and the order of the steps are modelled. */
module Bootstrap {
  import opened JsonValues
  import opened Text
  import opened Process

  /** The steps of the pipeline, in the order the source runs them. */
  datatype Step = ReadPublicKey | Keyscan | CopyKey | Settle | VerifyKey

  const Pipeline: seq<Step> := [ReadPublicKey, Keyscan, CopyKey, Settle, VerifyKey]

  /** Whether the public key file could be opened and read. */
  datatype PublicKey = Readable | Unreadable(cause: Cause)

  /** The `(success, message)` pair, the steps that were attempted, and whether
      the missing-sentinel warning was logged. */
  datatype Outcome = Outcome(ok: bool, message: Message, ran: seq<Step>, sentinelMissing: bool)

  /** The text the remote key-append command echoes when it completes. */
  const Sentinel := "Key added successfully"

  /** The steps up to and including the key installation must all have gone
      through for the verification connection to be attempted. */
  predicate ReachesVerify(pubKey: PublicKey, password: Json, copy: ProcOutcome)
  {
    pubKey.Readable? && password.JStr? && Succeeded(copy)
  }

  /** `setup_ssh_connection(host, port, user, password)`. The keyscan outcome is
      accepted but, as in the source, every keyscan failure (a timeout included)
      is swallowed. A password that is not a string makes the runner raise before
      `sshpass` starts. */
  function SetupConnection(pubKey: PublicKey, password: Json, keyscan: ProcOutcome,
                           copy: ProcOutcome, verify: ProcOutcome): (b: Outcome)
    ensures b.ran <= Pipeline && |b.ran| >= 1
    ensures b.ok <==> ReachesVerify(pubKey, password, copy) && Succeeded(verify)
    ensures b.ok ==> b.ran == Pipeline && b.message == Says("SSH configured successfully")
    ensures VerifyKey in b.ran <==> ReachesVerify(pubKey, password, copy)
    ensures CopyKey in b.ran <==> pubKey.Readable?
    ensures b.sentinelMissing <==> ReachesVerify(pubKey, password, copy) && !Occurs(Sentinel, copy.stdout)
  {
    match pubKey
    case Unreadable(cause) => Outcome(false, Error(cause), [ReadPublicKey], false)
    case Readable =>
      var attempted := [ReadPublicKey, Keyscan, CopyKey];
      if !password.JStr? then Outcome(false, Error(TypeMismatch), attempted, false)
      else match copy
        case TimedOut(_) => Outcome(false, Says("Connection timeout"), attempted, false)
        case RunError(description) => Outcome(false, Error(ProcessFailure(description)), attempted, false)
        case Exited(code, stdout, stderr) =>
          if code != 0 then
            Outcome(false, Says("Failed to copy SSH key: " + (if stderr != "" then stderr else stdout)), attempted, false)
          else
            var warned := !Occurs(Sentinel, stdout);
            match verify
            case TimedOut(_) => Outcome(false, Says("Connection timeout"), Pipeline, warned)
            case RunError(description) => Outcome(false, Error(ProcessFailure(description)), Pipeline, warned)
            case Exited(vcode, _, vstderr) =>
              if vcode != 0 then
                Outcome(false, Says("Key was copied but test connection failed: " + vstderr), Pipeline, warned)
              else
                Outcome(true, Says("SSH configured successfully"), Pipeline, warned)
  }

  /** Host-key discovery is advisory: no keyscan outcome changes anything. */
  lemma KeyscanIsAdvisory(pubKey: PublicKey, password: Json, k1: ProcOutcome, k2: ProcOutcome,
                          copy: ProcOutcome, verify: ProcOutcome)
    ensures SetupConnection(pubKey, password, k1, copy, verify) == SetupConnection(pubKey, password, k2, copy, verify)
  {
  }

  /** A non-zero `sshpass` exit is fatal: the result carries stderr (stdout when
      stderr is empty), and the verification outcome is never consulted. */
  lemma CopyFailureIsFatal(password: Json, keyscan: ProcOutcome, copy: ProcOutcome,
                           v1: ProcOutcome, v2: ProcOutcome)
    requires password.JStr? && copy.Exited? && copy.code != 0
    ensures SetupConnection(Readable, password, keyscan, copy, v1) == SetupConnection(Readable, password, keyscan, copy, v2)
    ensures var b := SetupConnection(Readable, password, keyscan, copy, v1);
      !b.ok && VerifyKey !in b.ran
      && b.message == Says("Failed to copy SSH key: " + (if copy.stderr != "" then copy.stderr else copy.stdout))
  {
  }

  /** The success sentinel is advisory: two installations that both exit 0 with
      the same stderr lead to the same result and message, whatever they print. */
  lemma SentinelIsAdvisory(password: Json, keyscan: ProcOutcome, out1: string, out2: string,
                           err: string, verify: ProcOutcome)
    ensures var b1 := SetupConnection(Readable, password, keyscan, Exited(0, out1, err), verify);
      var b2 := SetupConnection(Readable, password, keyscan, Exited(0, out2, err), verify);
      b1.ok == b2.ok && b1.message == b2.message && b1.ran == b2.ran
  {
  }

  /** Once the key is installed, the batch-mode test alone decides the result. */
  lemma VerificationDecides(password: Json, keyscan: ProcOutcome, copy: ProcOutcome, verify: ProcOutcome)
    requires ReachesVerify(Readable, password, copy)
    ensures var b := SetupConnection(Readable, password, keyscan, copy, verify);
      b.ok <==> verify.Exited? && verify.code == 0
    ensures verify.Exited? && verify.code != 0 ==>
      SetupConnection(Readable, password, keyscan, copy, verify).message
        == Says("Key was copied but test connection failed: " + verify.stderr)
  {
  }

  /** A timeout of the installation or of the verification ends the bootstrap with
      "Connection timeout"; a keyscan timeout does not (it is swallowed). */
  lemma TimeoutMessage(password: Json, keyscan: ProcOutcome, copy: ProcOutcome, verify: ProcOutcome)
    requires password.JStr?
    requires copy.TimedOut? || (Succeeded(copy) && verify.TimedOut?)
    ensures var b := SetupConnection(Readable, password, keyscan, copy, verify);
      !b.ok && b.message == Says("Connection timeout")
  {
  }
}
