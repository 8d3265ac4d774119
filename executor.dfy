/**
 * The two-phase executor (`execute`) and the step driver (`executeStep`) of
 * handler.go.  Each is an imperative method over the candidate block whose
 * results and new block state are tied to a specification function; the
 * properties of the protocol are lemmas about those functions.
 */
module Executor {
  import opened Wrappers
  import opened Bytes
  import opened GoStrings
  import opened Engine
  import opened DeployArgs
  import opened Registry

  /** A MsgExecute, as NewMsgExecute builds it. */
  datatype ExecMsg = ExecMsg(
    contractAddress: string,
    execAddress: seq<byte>,
    sessionType: SessionType,
    sessionCode: seq<byte>,
    sessionArgs: string,       // hex text of the ABI-encoded session arguments
    fee: string)

  /**
   * What the block context supplies: height, block time in Unix seconds, and
   * the registry key that the simulate path reads for the current height.
   */
  datatype Context = Context(blockHeight: int, blockTimeUnix: int, heightKey: seq<byte>)

  /** The error texts of the types package, and fmt's handling of verbs. */
  datatype Texts = Texts(
    gasError: string,
    execError: string -> string,
    missingParent: string -> string,
    fmt: Formatter)

  /**
   * The collaborators of the executor that are not part of this model: the
   * constants, the ABI encoder, the deploy hash (Blake2b-256 of the message's
   * sign bytes), the proxy contract hash and the error texts.
   */
  datatype Env = Env(
    consts: Constants,
    abi: seq<Arg> -> Result<seq<byte>, string>,
    signHash: ExecMsg -> seq<byte>,
    proxyContractHash: Option<seq<byte>>,
    texts: Texts)

  /** The proxy contract hash as a byte string (nil when unset). */
  function ProxyHash(env: Env): seq<byte> {
    env.proxyContractHash.GetOr([])
  }

  /** The observable state of the candidate block. */
  datatype BlockState = BlockState(state: seq<byte>, bonds: seq<Bond>, protocolVersion: ProtocolVersion)

  /** The root and bonds a successful Commit installs. */
  datatype Installed = Installed(state: seq<byte>, bonds: seq<Bond>)

  function Install(b: BlockState, i: Option<Installed>): (r: BlockState)
    ensures r.protocolVersion == b.protocolVersion
    ensures i.None? ==> r == b
    ensures i.Some? ==> r.state == i.value.state && r.bonds == i.value.bonds
  {
    match i
    case None => b
    case Some(x) => BlockState(x.state, x.bonds, b.protocolVersion)
  }

  /** The block under construction. */
  class CandidateBlock {
    var state: seq<byte>
    var bonds: seq<Bond>
    var protocolVersion: ProtocolVersion

    constructor (state: seq<byte>, bonds: seq<Bond>, protocolVersion: ProtocolVersion)
      ensures Snapshot() == BlockState(state, bonds, protocolVersion)
    {
      this.state := state;
      this.bonds := bonds;
      this.protocolVersion := protocolVersion;
    }

    function Snapshot(): BlockState
      reads this
    {
      BlockState(state, bonds, protocolVersion)
    }
  }

  // ------------------------------------------ the per-deploy result scan

  /** The loop state over deploy results: the log, the last error seen, the effects. */
  datatype Scan = Scan(log: string, err: Option<string>, effects: seq<Effect>)

  const EmptyScan: Scan := Scan("", None, [])

  function DeployErrorText(t: Texts, e: DeployError): (r: Option<string>)
    ensures r.None? <==> e.NoError?
  {
    match e
    case NoError => None
    case GasError => Some(t.gasError)
    case ExecError(m) => Some(t.execError(m))
  }

  /**
   * One iteration of the loop: a gas or exec error replaces the error
   * variable, which otherwise keeps its previous value; the effects are
   * appended; while the error variable is set, fmt.Sprintf(log, err) is
   * appended to the log.
   */
  function ScanStep(t: Texts, s: Scan, r: DeployResult): (n: Scan)
    ensures n.effects == s.effects + r.effects
    ensures HasPrefix(n.log, s.log)
    ensures n.err.None? <==> s.err.None? && r.error.NoError?
    ensures n.err.Some? ==> |n.log| > |s.log| || s.log != ""
    ensures s.err.None? && s.log == "" && n.err.Some? ==> n.log != ""
  {
    var err := if r.error.NoError? then s.err else DeployErrorText(t, r.error);
    var log := if err.Some? then s.log + Sprintf1(t.fmt, s.log, err.value) else s.log;
    Scan(log, err, s.effects + r.effects)
  }

  /** The loop run over the first |rs| results. */
  function ScanAll(t: Texts, rs: seq<DeployResult>): Scan
  {
    if rs == [] then EmptyScan else ScanStep(t, ScanAll(t, rs[..|rs| - 1]), rs[|rs| - 1])
  }

  /** Every effect of every deploy result, in order. */
  function AllEffects(rs: seq<DeployResult>): seq<Effect>
  {
    if rs == [] then [] else rs[0].effects + AllEffects(rs[1..])
  }

  predicate NoDeployErrors(rs: seq<DeployResult>) {
    forall i :: 0 <= i < |rs| ==> rs[i].error.NoError?
  }

  lemma {:induction false} AllEffectsSnoc(rs: seq<DeployResult>, r: DeployResult)
    ensures AllEffects(rs + [r]) == AllEffects(rs) + r.effects
  {
    if rs != [] {
      assert (rs + [r])[1..] == rs[1..] + [r];
      AllEffectsSnoc(rs[1..], r);
    } else {
      assert rs + [r] == [r];
    }
  }

  /**
   * The scan's log is empty exactly when no result reported an error, and
   * its effects are all results' effects in order.
   */
  lemma {:induction false} ScanAllFacts(t: Texts, rs: seq<DeployResult>)
    ensures ScanAll(t, rs).effects == AllEffects(rs)
    ensures ScanAll(t, rs).log == "" <==> NoDeployErrors(rs)
    ensures ScanAll(t, rs).err.None? <==> NoDeployErrors(rs)
  {
    if rs != [] {
      var init := rs[..|rs| - 1];
      ScanAllFacts(t, init);
      AllEffectsSnoc(init, rs[|rs| - 1]);
      assert init + [rs[|rs| - 1]] == rs;
      assert NoDeployErrors(rs) <==> NoDeployErrors(init) && rs[|rs| - 1].error.NoError?;
    }
  }

  // ------------------------------------------------ response interpretation

  datatype Interpretation = Interpretation(log: string, effects: seq<Effect>)

  /** The switch on the Execute response: Success scans the results, the rest log one error. */
  function Interpret(t: Texts, res: ExecuteResult): (r: Interpretation)
    ensures res.ExecMissingParent? ==> r == Interpretation(t.missingParent(HexEncode(res.hash)), [])
    ensures res.ExecOther? ==> r == Interpretation("Unknown result : " + res.description, [])
  {
    match res
    case ExecSuccess(rs) =>
      var s := ScanAll(t, rs);
      Interpretation(s.log, s.effects)
    case ExecMissingParent(h) => Interpretation(t.missingParent(HexEncode(h)), [])
    case ExecOther(d) => Interpretation("Unknown result : " + d, [])
  }

  lemma InterpretSuccess(t: Texts, rs: seq<DeployResult>)
    ensures Interpret(t, ExecSuccess(rs)).effects == AllEffects(rs)
    ensures Interpret(t, ExecSuccess(rs)).log == "" <==> NoDeployErrors(rs)
  {
    ScanAllFacts(t, rs);
  }

  /** The loop over the deploy results of a Success answer. */
  method ScanResults(t: Texts, results: seq<DeployResult>) returns (log: string, err: Option<string>, effects: seq<Effect>)
    ensures Scan(log, err, effects) == ScanAll(t, results)
  {
    log, err, effects := "", None, [];
    var i := 0;
    while i < |results|
      invariant 0 <= i <= |results|
      invariant Scan(log, err, effects) == ScanAll(t, results[..i])
    {
      var res := results[i];
      ghost var before := Scan(log, err, effects);
      match res.error {
        case GasError => err := Some(t.gasError);
        case ExecError(m) => err := Some(t.execError(m));
        case NoError =>
      }
      effects := effects + res.effects;
      if err.Some? {
        log := log + Sprintf1(t.fmt, log, err.value);
      }
      assert Scan(log, err, effects) == ScanStep(t, before, res);
      assert results[..i + 1][..i] == results[..i];
      i := i + 1;
    }
    assert results[..|results|] == results;
  }

  // -------------------------------------------------------------- execute

  /** The parent root: the registry's root for the height when simulating, else the block's. */
  function ParentRoot(store: map<seq<byte>, Value>, ctx: Context, b: BlockState, simulate: bool): seq<byte> {
    if simulate then UnitAt(store, EntryKey(ctx.heightKey)).eeState else b.state
  }

  /** The protocol version: genesis when simulating, else the block's. */
  function ParentVersion(store: map<seq<byte>, Value>, b: BlockState, simulate: bool): ProtocolVersion {
    if simulate then ConfAt(store).protocolVersion else b.protocolVersion
  }

  /** The single deploy execute submits. */
  function DeployFor(env: Env, msg: ExecMsg, sessionAbi: seq<byte>, paymentAbi: seq<byte>): (d: DeployItem)
    ensures d.authorizationKeys == [msg.execAddress] && d.deployHash == env.signHash(msg)
    ensures d.payment == DeployPayload(HashSession, ProxyHash(env), paymentAbi)
    ensures d.session == DeployPayload(msg.sessionType, msg.sessionCode, sessionAbi)
    ensures d.address == msg.execAddress && d.gasPrice == env.consts.basicGas
  {
    DeployItem(
      msg.execAddress,
      DeployPayload(msg.sessionType, msg.sessionCode, sessionAbi),
      DeployPayload(HashSession, ProxyHash(env), paymentAbi),
      [msg.execAddress],
      env.signHash(msg),
      env.consts.basicGas)
  }

  datatype ExecOutcome = ExecOutcome(ok: bool, log: string, calls: Calls, installed: Option<Installed>)

  /**
   * What execute does, given the engine's answers: the Execute reply (or a
   * transport error) and the Commit reply.
   */
  function ExecuteSpec(env: Env, store: map<seq<byte>, Value>, ctx: Context, b: BlockState, msg: ExecMsg,
                       simulate: bool, execReply: Result<ExecuteResult, string>, commitReply: CommitReply): ExecOutcome
  {
    var parent := ParentRoot(store, ctx, b, simulate);
    var pv := ParentVersion(store, b, simulate);
    match env.abi(PayAmountArgs(env.consts, msg.fee))
    case Err(e) => ExecOutcome(false, e, NoCalls, None)
    case Ok(paymentAbi) =>
      match HexDecode(msg.sessionArgs)
      case Err(e) => ExecOutcome(false, HexErrorText(e), NoCalls, None)
      case Ok(sessionAbi) =>
        var req := ExecuteRequest(parent, Uint64(ctx.blockTimeUnix), [DeployFor(env, msg, sessionAbi, paymentAbi)], pv);
        match execReply
        case Err(e) => ExecOutcome(false, e, Calls(Some(req), None, None), None)
        case Ok(res) =>
          var interp := Interpret(env.texts, res);
          if simulate then
            ExecOutcome(interp.log == "", interp.log, Calls(Some(req), None, None), None)
          else
            var log := interp.log + commitReply.error;
            ExecOutcome(log == "", log,
                        Calls(Some(req), None, Some(CommitRequest(parent, interp.effects, pv))),
                        Some(Installed(commitReply.postStateHash, commitReply.bonds)))
  }

  /**
   * execute(ctx, k, msg, simulate).  The store is only read; the candidate
   * block is the only thing written.
   */
  method Execute(env: Env, k: Keeper, ctx: Context, cb: CandidateBlock, msg: ExecMsg, simulate: bool,
                 execReply: Result<ExecuteResult, string>, commitReply: CommitReply)
    returns (ok: bool, log: string, calls: Calls)
    modifies cb
    ensures var o := ExecuteSpec(env, k.store, ctx, old(cb.Snapshot()), msg, simulate, execReply, commitReply);
            && ok == o.ok && log == o.log && calls == o.calls
            && cb.Snapshot() == Install(old(cb.Snapshot()), o.installed)
  {
    var stateHash: seq<byte>;
    var protocolVersion: ProtocolVersion;
    if simulate {
      stateHash := k.GetUnitHashMap(ctx.heightKey).eeState;
      protocolVersion := k.GenesisProtocolVersion();
    } else {
      stateHash := cb.state;
      protocolVersion := cb.protocolVersion;
    }
    log := "";
    calls := NoCalls;

    var paymentAbi := env.abi(PayAmountArgs(env.consts, msg.fee));
    if paymentAbi.Err? {
      return false, paymentAbi.error, calls;
    }
    var sessionAbi := HexDecode(msg.sessionArgs);
    if sessionAbi.Err? {
      return false, HexErrorText(sessionAbi.error), calls;
    }

    var deploys := [DeployFor(env, msg, sessionAbi.value, paymentAbi.value)];
    var reqExecute := ExecuteRequest(stateHash, Uint64(ctx.blockTimeUnix), deploys, protocolVersion);
    calls := Calls(Some(reqExecute), None, None);
    if execReply.Err? {
      return false, execReply.error, calls;
    }

    var effects: seq<Effect> := [];
    match execReply.value {
      case ExecSuccess(results) =>
        var err: Option<string>;
        log, err, effects := ScanResults(env.texts, results);
      case ExecMissingParent(h) =>
        log := log + env.texts.missingParent(HexEncode(h));
      case ExecOther(d) =>
        log := log + "Unknown result : " + d;
    }

    if simulate {
      return log == "", log, calls;
    }

    // Commit, and install its results whatever the log says.
    calls := calls.(commit := Some(CommitRequest(stateHash, effects, protocolVersion)));
    log := log + commitReply.error;
    cb.state := commitReply.postStateHash;
    cb.bonds := commitReply.bonds;
    ok := log == "";
  }

  // ---------------------------------------------------- execute's properties

  /** The Execute request goes to the mode's parent root with the mode's protocol version. */
  lemma ExecuteParentRoot(env: Env, store: map<seq<byte>, Value>, ctx: Context, b: BlockState, msg: ExecMsg,
                          simulate: bool, execReply: Result<ExecuteResult, string>, commitReply: CommitReply)
    ensures var o := ExecuteSpec(env, store, ctx, b, msg, simulate, execReply, commitReply);
            o.calls.execute.Some? ==>
              && o.calls.execute.value.parentStateHash == (if simulate then UnitAt(store, EntryKey(ctx.heightKey)).eeState else b.state)
              && o.calls.execute.value.protocolVersion == (if simulate then ConfAt(store).protocolVersion else b.protocolVersion)
              && o.calls.execute.value.blockTime == Uint64(ctx.blockTimeUnix)
              && |o.calls.execute.value.deploys| == 1
  {
  }

  /**
   * Once the payment arguments encode and the session arguments decode,
   * execute sends exactly one Execute request carrying the one deploy.
   */
  lemma ExecuteIssued(env: Env, store: map<seq<byte>, Value>, ctx: Context, b: BlockState, msg: ExecMsg,
                      simulate: bool, execReply: Result<ExecuteResult, string>, commitReply: CommitReply)
    requires env.abi(PayAmountArgs(env.consts, msg.fee)).Ok? && HexDecode(msg.sessionArgs).Ok?
    ensures ExecuteSpec(env, store, ctx, b, msg, simulate, execReply, commitReply).calls.execute
            == Some(ExecuteRequest(ParentRoot(store, ctx, b, simulate), Uint64(ctx.blockTimeUnix),
                                   [DeployFor(env, msg, HexDecode(msg.sessionArgs).value, env.abi(PayAmountArgs(env.consts, msg.fee)).value)],
                                   ParentVersion(store, b, simulate)))
  {
  }

  /**
   * Simulation never commits and never changes the block; once the engine has
   * answered, success is an empty log.
   */
  lemma SimulateLeavesBlock(env: Env, store: map<seq<byte>, Value>, ctx: Context, b: BlockState, msg: ExecMsg,
                            execReply: Result<ExecuteResult, string>, commitReply: CommitReply)
    ensures var o := ExecuteSpec(env, store, ctx, b, msg, true, execReply, commitReply);
            && o.calls.commit.None? && o.installed.None? && Install(b, o.installed) == b
            && (o.calls.execute.Some? && execReply.Ok? ==> (o.ok <==> o.log == ""))
  {
  }

  /**
   * Outside simulation, once the engine answered Execute, Commit is issued on
   * the same parent root with the accumulated effects; its error text is
   * appended; its root and bonds are installed whatever the log holds; and
   * the call succeeds exactly when the final log is empty.
   */
  lemma DeliverInstallsCommit(env: Env, store: map<seq<byte>, Value>, ctx: Context, b: BlockState, msg: ExecMsg,
                              res: ExecuteResult, commitReply: CommitReply)
    requires env.abi(PayAmountArgs(env.consts, msg.fee)).Ok? && HexDecode(msg.sessionArgs).Ok?
    ensures var o := ExecuteSpec(env, store, ctx, b, msg, false, Ok(res), commitReply);
            var interp := Interpret(env.texts, res);
            && o.calls.commit == Some(CommitRequest(b.state, interp.effects, b.protocolVersion))
            && o.log == interp.log + commitReply.error
            && o.installed == Some(Installed(commitReply.postStateHash, commitReply.bonds))
            && Install(b, o.installed) == BlockState(commitReply.postStateHash, commitReply.bonds, b.protocolVersion)
            && (o.ok <==> o.log == "")
  {
  }

  /** A commit error makes the call fail, yet the block still takes Commit's outputs. */
  lemma CommitErrorStillInstalls(env: Env, store: map<seq<byte>, Value>, ctx: Context, b: BlockState, msg: ExecMsg,
                                 res: ExecuteResult, commitReply: CommitReply)
    requires env.abi(PayAmountArgs(env.consts, msg.fee)).Ok? && HexDecode(msg.sessionArgs).Ok?
    requires commitReply.error != ""
    ensures var o := ExecuteSpec(env, store, ctx, b, msg, false, Ok(res), commitReply);
            !o.ok && o.installed == Some(Installed(commitReply.postStateHash, commitReply.bonds))
  {
  }

  /**
   * A failure before the Execute response is read (payment ABI encoding,
   * hex decoding of the session arguments, transport) returns false with the
   * error text, issues no Commit and leaves the block alone.
   */
  lemma EarlyFailureLeavesBlock(env: Env, store: map<seq<byte>, Value>, ctx: Context, b: BlockState, msg: ExecMsg,
                                simulate: bool, execReply: Result<ExecuteResult, string>, commitReply: CommitReply)
    requires env.abi(PayAmountArgs(env.consts, msg.fee)).Err? || HexDecode(msg.sessionArgs).Err? || execReply.Err?
    ensures var o := ExecuteSpec(env, store, ctx, b, msg, simulate, execReply, commitReply);
            && !o.ok && o.installed.None? && o.calls.commit.None?
            && o.log == (if env.abi(PayAmountArgs(env.consts, msg.fee)).Err? then env.abi(PayAmountArgs(env.consts, msg.fee)).error
                         else if HexDecode(msg.sessionArgs).Err? then HexErrorText(HexDecode(msg.sessionArgs).error)
                         else execReply.error)
            && (o.calls.execute.Some? <==> env.abi(PayAmountArgs(env.consts, msg.fee)).Ok? && HexDecode(msg.sessionArgs).Ok?)
  {
  }

  /**
   * For a Success response, simulation succeeds exactly when no deploy result
   * reported a gas or exec error, and the effects handed to Commit are every
   * result's effects in order.
   */
  lemma SuccessClassification(env: Env, store: map<seq<byte>, Value>, ctx: Context, b: BlockState, msg: ExecMsg,
                              rs: seq<DeployResult>, commitReply: CommitReply)
    requires env.abi(PayAmountArgs(env.consts, msg.fee)).Ok? && HexDecode(msg.sessionArgs).Ok?
    ensures ExecuteSpec(env, store, ctx, b, msg, true, Ok(ExecSuccess(rs)), commitReply).ok <==> NoDeployErrors(rs)
    ensures ExecuteSpec(env, store, ctx, b, msg, false, Ok(ExecSuccess(rs)), commitReply).calls.commit.value.effects == AllEffects(rs)
    ensures ExecuteSpec(env, store, ctx, b, msg, false, Ok(ExecSuccess(rs)), commitReply).ok
            <==> NoDeployErrors(rs) && commitReply.error == ""
  {
    InterpretSuccess(env.texts, rs);
  }

  /**
   * A MissingParent answer logs the missing-parent error built from the hex of
   * the hash; in simulation the call then fails and the block is untouched.
   */
  lemma MissingParentSimulated(env: Env, store: map<seq<byte>, Value>, ctx: Context, b: BlockState, msg: ExecMsg,
                               hash: seq<byte>, commitReply: CommitReply)
    requires env.abi(PayAmountArgs(env.consts, msg.fee)).Ok? && HexDecode(msg.sessionArgs).Ok?
    requires env.texts.missingParent(HexEncode(hash)) != ""
    ensures var o := ExecuteSpec(env, store, ctx, b, msg, true, Ok(ExecMissingParent(hash)), commitReply);
            !o.ok && o.log == env.texts.missingParent(HexEncode(hash)) && o.installed.None? && o.calls.commit.None?
  {
  }

  /** Any other answer logs "Unknown result" with its text and cannot succeed. */
  lemma UnknownResultFails(env: Env, store: map<seq<byte>, Value>, ctx: Context, b: BlockState, msg: ExecMsg,
                           simulate: bool, description: string, commitReply: CommitReply)
    requires env.abi(PayAmountArgs(env.consts, msg.fee)).Ok? && HexDecode(msg.sessionArgs).Ok?
    ensures var o := ExecuteSpec(env, store, ctx, b, msg, simulate, Ok(ExecOther(description)), commitReply);
            !o.ok && HasPrefix(o.log, "Unknown result : " + description)
  {
  }

  // ----------------------------------------------------------------- step

  datatype StepOutcome = StepOutcome(ok: bool, error: Option<string>, calls: Calls, installed: Option<Installed>)

  /** What executeStep does, given the engine's Step and Commit answers. */
  function StepSpec(f: Formatter, ctx: Context, b: BlockState, stepReply: Result<StepResult, string>,
                    commitReply: CommitReply): StepOutcome
  {
    var req := StepRequest(b.state, Uint64(ctx.blockTimeUnix), Uint64(ctx.blockHeight), b.protocolVersion);
    var stepped := Calls(None, Some(req), None);
    match stepReply
    case Err(e) => StepOutcome(false, Some(e), stepped, None)
    case Ok(StepMissingParent(h)) => StepOutcome(false, Some("Missing parent : " + HexEncode(h)), stepped, None)
    case Ok(StepError(m)) => StepOutcome(false, Some(Sprintf0(f, m)), stepped, None)
    case Ok(StepOther(d)) => StepOutcome(false, Some("Unknown result : " + d), stepped, None)
    case Ok(StepSuccess(post, effects)) =>
      var committed := stepped.(commit := Some(CommitRequest(post, effects, b.protocolVersion)));
      if commitReply.error != "" then StepOutcome(false, Some(Sprintf0(f, commitReply.error)), committed, None)
      else StepOutcome(true, None, committed, Some(Installed(commitReply.postStateHash, commitReply.bonds)))
  }

  /** executeStep(ctx, k): the block's root is advanced only when Step and Commit both succeed. */
  method ExecuteStep(f: Formatter, ctx: Context, cb: CandidateBlock, stepReply: Result<StepResult, string>,
                     commitReply: CommitReply)
    returns (ok: bool, error: Option<string>, calls: Calls)
    modifies cb
    ensures var o := StepSpec(f, ctx, old(cb.Snapshot()), stepReply, commitReply);
            && ok == o.ok && error == o.error && calls == o.calls
            && cb.Snapshot() == Install(old(cb.Snapshot()), o.installed)
  {
    var stepRequest := StepRequest(cb.state, Uint64(ctx.blockTimeUnix), Uint64(ctx.blockHeight), cb.protocolVersion);
    calls := Calls(None, Some(stepRequest), None);
    if stepReply.Err? {
      return false, Some(stepReply.error), calls;
    }

    var stateHash: seq<byte>;
    var effects: seq<Effect>;
    match stepReply.value {
      case StepSuccess(post, e) =>
        stateHash := post;
        effects := e;
      case StepMissingParent(h) =>
        return false, Some("Missing parent : " + HexEncode(h)), calls;
      case StepError(m) =>
        return false, Some(Sprintf0(f, m)), calls;
      case StepOther(d) =>
        return false, Some("Unknown result : " + d), calls;
    }

    calls := calls.(commit := Some(CommitRequest(stateHash, effects, cb.protocolVersion)));
    if commitReply.error != "" {
      return false, Some(Sprintf0(f, commitReply.error)), calls;
    }

    cb.state := commitReply.postStateHash;
    cb.bonds := commitReply.bonds;
    return true, None, calls;
  }

  /**
   * The step driver changes the block exactly when it succeeds, and only a
   * successful Step followed by a Commit without error succeeds; Commit is
   * applied to the step's post-state hash and its outputs are installed.
   */
  lemma StepAtomic(f: Formatter, ctx: Context, b: BlockState, stepReply: Result<StepResult, string>, commitReply: CommitReply)
    ensures var o := StepSpec(f, ctx, b, stepReply, commitReply);
            && (o.ok <==> o.error.None?)
            && (o.ok <==> o.installed.Some?)
            && (o.ok <==> stepReply.Ok? && stepReply.value.StepSuccess? && commitReply.error == "")
            && (!o.ok ==> Install(b, o.installed) == b)
            && (o.ok ==> Install(b, o.installed) == BlockState(commitReply.postStateHash, commitReply.bonds, b.protocolVersion))
            && (stepReply.Ok? && stepReply.value.StepSuccess? <==> o.calls.commit.Some?)
            && (o.calls.commit.Some? ==>
                  o.calls.commit.value == CommitRequest(stepReply.value.postStateHash, stepReply.value.effects, b.protocolVersion))
            && o.calls.step == Some(StepRequest(b.state, Uint64(ctx.blockTimeUnix), Uint64(ctx.blockHeight), b.protocolVersion))
  {
  }
}
