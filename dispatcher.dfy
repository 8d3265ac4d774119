/**
 * NewHandler's dispatch and the message handlers of handler.go.  A handler
 * is split into a pure plan (the checks it makes and the MsgExecute it
 * builds, or the answer it gives without executing), its call to execute,
 * and a pure finish that turns execute's (result, log) into the sdk.Result
 * and the keeper writes that follow.
 */
module Dispatcher {
  import opened Wrappers
  import opened Bytes
  import opened GoStrings
  import opened Engine
  import opened DeployArgs
  import opened Registry
  import Executor

  /** The messages NewHandler routes; any other type is carried by its rendered type name. */
  datatype Msg =
    | MsgExecute(exec: Executor.ExecMsg)        // sessionArgs holds the JSON argument text
    | MsgTransfer(contractAddress: string, fromAddress: seq<byte>, toAddress: seq<byte>, amount: string, fee: string)
    | MsgCreateValidator(contractAddress: string, validatorAddress: seq<byte>, fee: string)
    | MsgEditValidator(contractAddress: string, validatorAddress: seq<byte>, fee: string)
    | MsgBond(contractAddress: string, fromAddress: seq<byte>, amount: string, fee: string)
    | MsgUnBond(contractAddress: string, fromAddress: seq<byte>, amount: string, fee: string)
    | MsgDelegate(contractAddress: string, fromAddress: seq<byte>, valAddress: seq<byte>, amount: string, fee: string)
    | MsgUndelegate(contractAddress: string, fromAddress: seq<byte>, valAddress: seq<byte>, amount: string, fee: string)
    | MsgRedelegate(contractAddress: string, fromAddress: seq<byte>, srcValAddress: seq<byte>,
                    destValAddress: seq<byte>, amount: string, fee: string)
    | MsgVote(contractAddress: string, fromAddress: seq<byte>, targetContractAddress: string, amount: string, fee: string)
    | MsgUnvote(contractAddress: string, fromAddress: seq<byte>, targetContractAddress: string, amount: string, fee: string)
    | MsgClaim(contractAddress: string, fromAddress: seq<byte>, rewardOrCommission: string, fee: string)
    | Unrecognized(typeName: string)

  datatype Code = CodeOK | CodeUnknownRequest

  /** The sdk.Result a handler returns: getResult's answer, or one of the sdk errors. */
  datatype SdkResult =
    | Answer(code: Code, log: string)
    | ValidatorOwnerExists
    | ValidatorPubKeyExists
    | InvalidDescription(error: string)
    | PubKeyTypeNotSupported(pubKeyType: string, allowed: seq<string>)
    | UnknownRequest(message: string)

  /** Writes to keepers outside this model (accounts and validators). */
  datatype Write = AccountIfNotExists(address: seq<byte>) | Validator(address: seq<byte>) | ValidatorByConsAddr(address: seq<byte>)

  /** The argument text after bech32 addresses were replaced by hex, and the addresses found. */
  datatype Replaced = Replaced(args: string, addresses: seq<seq<byte>>)

  /** Foreign helpers the handlers call: bech32 decoders and the JSON argument reader. */
  datatype Helpers = Helpers(
    parseURef: AddressParser,
    parseHash: AddressParser,
    replaceBech32: string -> Result<Replaced, string>,
    jsonToArgs: string -> Result<seq<Arg>, string>)

  /**
   * What the validator keeper, the description helpers and the consensus
   * parameters answer for the message at hand.
   */
  datatype Validators = Validators(
    ownerExists: bool,
    consPubKeyExists: bool,
    descriptionError: Option<string>,        // Description.EnsureLength
    pubKeyType: string,
    allowedPubKeyTypes: Option<seq<string>>, // None: no consensus parameters
    editFound: bool,                         // GetValidator in EditValidator
    updateError: Option<string>)             // Description.UpdateDescription

  /** getResult: code OK exactly when ok, with the log unchanged. */
  function GetResult(ok: bool, log: string): (r: SdkResult)
    ensures r.Answer? && (r.code == CodeOK <==> ok) && r.log == log
  {
    Answer(if ok then CodeOK else CodeUnknownRequest, log)
  }

  const UnknownValidator: string := "validator does not exist for that address"

  const UnrecognizedPrefix: string := "unrecognized execution layer messgae type: "

  // ------------------------------------------------------------ planning

  /** The handlers that call the proxy contract with a fixed argument list. */
  predicate ProxyCall(m: Msg) {
    m.MsgTransfer? || m.MsgBond? || m.MsgUnBond? || m.MsgDelegate? || m.MsgUndelegate?
    || m.MsgRedelegate? || m.MsgVote? || m.MsgUnvote?
  }

  /** The session argument list each proxy-calling handler builds. */
  function SessionArgs(c: Constants, h: Helpers, m: Msg): seq<Arg>
    requires ProxyCall(m)
  {
    match m
    case MsgTransfer(_, _, to, amount, _) => TransferArgs(c, to, amount)
    case MsgBond(_, _, amount, _) => BondArgs(c, amount)
    case MsgUnBond(_, _, amount, _) => UnbondArgs(c, amount)
    case MsgDelegate(_, _, v, amount, _) => DelegateArgs(c, v, amount)
    case MsgUndelegate(_, _, v, amount, _) => UndelegateArgs(c, v, amount)
    case MsgRedelegate(_, _, src, dst, amount, _) => RedelegateArgs(c, src, dst, amount)
    case MsgVote(_, _, target, amount, _) => VoteArgs(c, h.parseURef, h.parseHash, target, amount)
    case MsgUnvote(_, _, target, amount, _) => UnvoteArgs(c, h.parseURef, h.parseHash, target, amount)
  }

  /** NewMsgExecute for a call of the proxy contract (session type HASH). */
  function ProxyExec(env: Executor.Env, contractAddress: string, execAddress: seq<byte>,
                     sessionAbi: seq<byte>, fee: string): (e: Executor.ExecMsg)
    ensures e.sessionType == HashSession && e.sessionCode == Executor.ProxyHash(env)
    ensures HexDecode(e.sessionArgs) == Ok(sessionAbi)
  {
    HexRoundTrip(sessionAbi);
    Executor.ExecMsg(contractAddress, execAddress, HashSession, Executor.ProxyHash(env), HexEncode(sessionAbi), fee)
  }

  function ErrorOf(r: Result<seq<byte>, string>): Option<string> {
    if r.Err? then Some(r.error) else None
  }

  /** What a handler does with execute's (result, log). */
  datatype After =
    | Plain
    | AccountOnSuccess(address: seq<byte>)
    | Register(validator: seq<byte>, parseError: Option<string>)
    | Edit(validator: seq<byte>, found: bool, updateError: Option<string>, parseError: Option<string>)

  datatype Plan =
    | Reply(writes: seq<Write>, result: SdkResult)
    | Run(writes: seq<Write>, exec: Executor.ExecMsg, after: After)

  function AccountWrites(addresses: seq<seq<byte>>): (w: seq<Write>)
    ensures |w| == |addresses| && forall i :: 0 <= i < |w| ==> w[i] == AccountIfNotExists(addresses[i])
  {
    seq(|addresses|, i requires 0 <= i < |addresses| => AccountIfNotExists(addresses[i]))
  }

  /** The work each handler does before execute, or the reply it gives without executing. */
  function PlanFor(env: Executor.Env, h: Helpers, v: Validators, m: Msg): Plan
  {
    var c := env.consts;
    match m
    case MsgExecute(e) =>
      (match h.replaceBech32(e.sessionArgs)
       case Err(err) => Reply([], GetResult(false, err))
       case Ok(rep) =>
         var pre := AccountWrites(rep.addresses);
         (match h.jsonToArgs(rep.args)
          case Err(err) => Reply(pre, GetResult(false, err))
          case Ok(args) =>
            (match env.abi(args)
             case Err(err) => Reply(pre, GetResult(false, err))
             case Ok(abi) => Run(pre, e.(sessionArgs := HexEncode(abi)), Plain))))
    case MsgCreateValidator(contract, val, fee) =>
      if v.ownerExists then Reply([], ValidatorOwnerExists)
      else if v.consPubKeyExists then Reply([], ValidatorPubKeyExists)
      else if v.descriptionError.Some? then Reply([], InvalidDescription(v.descriptionError.value))
      else if v.allowedPubKeyTypes.Some? && v.pubKeyType !in v.allowedPubKeyTypes.value then
        Reply([], PubKeyTypeNotSupported(v.pubKeyType, v.allowedPubKeyTypes.value))
      else if env.proxyContractHash.None? then Reply([Validator(val), ValidatorByConsAddr(val)], GetResult(true, ""))
      else
        var parse := env.abi(PayAmountArgs(c, c.basicPayAmount));
        Run([], ProxyExec(env, contract, val, OrEmpty(parse), fee), Register(val, ErrorOf(parse)))
    case MsgEditValidator(contract, val, fee) =>
      var payment := if v.editFound && v.updateError.None? then c.basicPayAmount else "0";
      var parse := env.abi(PayAmountArgs(c, payment));
      Run([], ProxyExec(env, contract, val, OrEmpty(parse), fee), Edit(val, v.editFound, v.updateError, ErrorOf(parse)))
    case MsgClaim(contract, from, value, fee) =>
      (match ClaimMethod(c, value)
       case Err(err) => Reply([], GetResult(false, err))
       case Ok(name) =>
         (match env.abi(ClaimArgs(name))
          case Err(err) => Reply([], GetResult(false, err))
          case Ok(abi) => Run([], ProxyExec(env, contract, from, abi, fee), Plain)))
    case Unrecognized(t) => Reply([], UnknownRequest(UnrecognizedPrefix + t))
    case _ =>
      var exec := ProxyExec(env, m.contractAddress, m.fromAddress, OrEmpty(env.abi(SessionArgs(c, h, m))), m.fee);
      Run([], exec, if m.MsgTransfer? then AccountOnSuccess(m.toAddress) else Plain)
  }

  datatype Finished = Finished(result: SdkResult, writes: seq<Write>)

  /** The checks a handler makes after execute returned, in the order it makes them. */
  function Finish(after: After, ok: bool, log: string): (f: Finished)
    ensures after.Plain? ==> f == Finished(GetResult(ok, log), [])
    ensures f.result.Answer?
    ensures after.AccountOnSuccess? ==> f == Finished(GetResult(ok, log), if ok then [AccountIfNotExists(after.address)] else [])
    ensures (after.Register? || after.Edit?) ==>
              (f.result.code == CodeOK <==> f.result == GetResult(true, "") && ok && log == "")
    ensures f.writes != [] <==> f.result.code == CodeOK && !after.Plain?
    // Registering: a malformed consensus key is reported before the engine's outcome.
    ensures after.Register? && after.parseError.Some? ==> f == Finished(GetResult(false, after.parseError.value), [])
    ensures after.Register? && after.parseError.None? && (log != "" || !ok) ==> f == Finished(GetResult(false, log), [])
    ensures after.Register? && f.result.code == CodeOK ==> f.writes == [Validator(after.validator), ValidatorByConsAddr(after.validator)]
    // Editing: an unknown validator, then the update's error, then the key's, then the engine's.
    ensures after.Edit? && !after.found ==> f == Finished(GetResult(false, UnknownValidator), [])
    ensures after.Edit? && after.found && after.updateError.Some? ==> f == Finished(GetResult(false, after.updateError.value), [])
    ensures after.Edit? && after.found && after.updateError.None? && after.parseError.Some? ==>
              f == Finished(GetResult(false, after.parseError.value), [])
    ensures after.Edit? && after.found && after.updateError.None? && after.parseError.None? && (log != "" || !ok) ==>
              f == Finished(GetResult(false, log), [])
    ensures after.Edit? && f.result.code == CodeOK ==> f.writes == [Validator(after.validator)]
  {
    match after
    case Plain => Finished(GetResult(ok, log), [])
    case AccountOnSuccess(a) => Finished(GetResult(ok, log), if ok then [AccountIfNotExists(a)] else [])
    case Register(val, parseError) =>
      if parseError.Some? then Finished(GetResult(false, parseError.value), [])
      else if log != "" || !ok then Finished(GetResult(false, log), [])
      else Finished(GetResult(true, ""), [Validator(val), ValidatorByConsAddr(val)])
    case Edit(val, found, updateError, parseError) =>
      if !found then Finished(GetResult(false, UnknownValidator), [])
      else if updateError.Some? then Finished(GetResult(false, updateError.value), [])
      else if parseError.Some? then Finished(GetResult(false, parseError.value), [])
      else if log != "" || !ok then Finished(GetResult(false, log), [])
      else Finished(GetResult(true, ""), [Validator(val)])
  }

  // ------------------------------------------------------------ handling

  datatype Handled = Handled(result: SdkResult, writes: seq<Write>, calls: Calls, installed: Option<Executor.Installed>)

  /** What the handler NewHandler picks for m does, given the engine's answers. */
  function HandleSpec(env: Executor.Env, h: Helpers, v: Validators, store: map<seq<byte>, Value>, ctx: Executor.Context,
                      b: Executor.BlockState, m: Msg, simulate: bool,
                      execReply: Result<ExecuteResult, string>, commitReply: CommitReply): Handled
  {
    match PlanFor(env, h, v, m)
    case Reply(w, r) => Handled(r, w, NoCalls, None)
    case Run(w, e, after) =>
      var o := Executor.ExecuteSpec(env, store, ctx, b, e, simulate, execReply, commitReply);
      var f := Finish(after, o.ok, o.log);
      Handled(f.result, w + f.writes, o.calls, o.installed)
  }

  /** NewHandler(k)(ctx, m, simulate). */
  method Handle(env: Executor.Env, h: Helpers, v: Validators, k: Keeper, ctx: Executor.Context,
                cb: Executor.CandidateBlock, m: Msg, simulate: bool,
                execReply: Result<ExecuteResult, string>, commitReply: CommitReply)
    returns (result: SdkResult, writes: seq<Write>, calls: Calls)
    modifies cb
    ensures var o := HandleSpec(env, h, v, k.store, ctx, old(cb.Snapshot()), m, simulate, execReply, commitReply);
            && result == o.result && writes == o.writes && calls == o.calls
            && cb.Snapshot() == Executor.Install(old(cb.Snapshot()), o.installed)
  {
    match PlanFor(env, h, v, m) {
      case Reply(w, r) =>
        return r, w, NoCalls;
      case Run(w, e, after) =>
        var ok, log, c := Executor.Execute(env, k, ctx, cb, e, simulate, execReply, commitReply);
        var f := Finish(after, ok, log);
        return f.result, w + f.writes, c;
    }
  }

  // ----------------------------------------------------------- properties

  /** The contract method each proxy-calling handler names first (a reference table). */
  function MethodOf(c: Constants, m: Msg): string
    requires ProxyCall(m)
  {
    if m.MsgTransfer? then c.transferMethod
    else if m.MsgBond? then c.bondMethod
    else if m.MsgUnBond? then c.unbondMethod
    else if m.MsgDelegate? then c.delegateMethod
    else if m.MsgUndelegate? then c.undelegateMethod
    else if m.MsgRedelegate? then c.redelegateMethod
    else if m.MsgVote? then c.voteMethod
    else c.unvoteMethod
  }

  /**
   * Every proxy-calling handler's argument list starts with its method name,
   * and is empty only for a vote or unvote target with neither prefix.
   */
  lemma MethodNameFirst(c: Constants, h: Helpers, m: Msg)
    requires ProxyCall(m)
    ensures SessionArgs(c, h, m) == [] <==>
              (m.MsgVote? || m.MsgUnvote?) && !HasPrefix(m.targetContractAddress, c.urefPrefix)
              && !HasPrefix(m.targetContractAddress, c.hashPrefix)
    ensures SessionArgs(c, h, m) != [] ==> CallsMethod(SessionArgs(c, h, m), MethodOf(c, m))
  {
  }

  /** Proof helper for ProxyCallExecutes: the default arm of PlanFor, which the proxy-calling handlers reach. */
  lemma ProxyCallPlan(env: Executor.Env, h: Helpers, v: Validators, m: Msg)
    requires ProxyCall(m)
    ensures PlanFor(env, h, v, m)
            == Run([], ProxyExec(env, m.contractAddress, m.fromAddress, OrEmpty(env.abi(SessionArgs(env.consts, h, m))), m.fee),
                   if m.MsgTransfer? then AccountOnSuccess(m.toAddress) else Plain)
  {
  }

  /**
   * A proxy-calling handler always executes, calling the proxy contract by
   * hash from the sender with the hex of its encoded arguments, or the empty
   * text when encoding failed; it writes nothing first, and only Transfer
   * has a follow-up write, for the recipient.
   */
  lemma ProxyCallExecutes(env: Executor.Env, h: Helpers, v: Validators, m: Msg)
    requires ProxyCall(m)
    ensures var p := PlanFor(env, h, v, m);
            && p.Run? && p.writes == []
            && p.exec.sessionType == HashSession && p.exec.sessionCode == Executor.ProxyHash(env)
            && p.exec.execAddress == m.fromAddress && p.exec.contractAddress == m.contractAddress
            && HexDecode(p.exec.sessionArgs) == Ok(OrEmpty(env.abi(SessionArgs(env.consts, h, m))))
            && (env.abi(SessionArgs(env.consts, h, m)).Err? ==> p.exec.sessionArgs == "")
            && (p.after.AccountOnSuccess? <==> m.MsgTransfer?)
            && (m.MsgTransfer? ==> p.after.address == m.toAddress)
  {
    ProxyCallPlan(env, h, v, m);
  }

  /**
   * The proxy-calling handlers drop an encoding error: execute still runs,
   * with empty session arguments.
   */
  lemma EncodingErrorIgnored(env: Executor.Env, h: Helpers, v: Validators, store: map<seq<byte>, Value>,
                              ctx: Executor.Context, b: Executor.BlockState, m: Msg, simulate: bool,
                              execReply: Result<ExecuteResult, string>, commitReply: CommitReply)
    requires ProxyCall(m) && env.abi(SessionArgs(env.consts, h, m)).Err?
    requires env.abi(PayAmountArgs(env.consts, m.fee)).Ok?
    ensures PlanFor(env, h, v, m).Run? && PlanFor(env, h, v, m).exec.sessionArgs == ""
    ensures HandleSpec(env, h, v, store, ctx, b, m, simulate, execReply, commitReply).calls.execute.Some?
  {
    ProxyCallPlan(env, h, v, m);
    var e := PlanFor(env, h, v, m).exec;
    assert HexDecode(e.sessionArgs) == Ok([]);
    Executor.ExecuteIssued(env, store, ctx, b, e, simulate, execReply, commitReply);
  }

  /**
   * A claim value that is neither commission nor reward is refused before
   * execute: nothing is sent to the engine and the block is untouched.
   */
  lemma ClaimRejectsUnknownValue(env: Executor.Env, h: Helpers, v: Validators, store: map<seq<byte>, Value>,
                                 ctx: Executor.Context, b: Executor.BlockState, m: Msg, simulate: bool,
                                 execReply: Result<ExecuteResult, string>, commitReply: CommitReply)
    requires m.MsgClaim? && m.rewardOrCommission != env.consts.commissionValue && m.rewardOrCommission != env.consts.rewardValue
    ensures var o := HandleSpec(env, h, v, store, ctx, b, m, simulate, execReply, commitReply);
            o == Handled(Answer(CodeUnknownRequest, "Must be reward or commission"), [], NoCalls, None)
  {
  }

  /** A valid claim value calls the matching claim method, commission first. */
  lemma ClaimSelectsMethod(env: Executor.Env, h: Helpers, v: Validators, m: Msg)
    requires m.MsgClaim? && env.abi(ClaimArgs(env.consts.claimCommissionMethod)).Ok?
    requires env.abi(ClaimArgs(env.consts.claimRewardMethod)).Ok?
    requires m.rewardOrCommission == env.consts.commissionValue || m.rewardOrCommission == env.consts.rewardValue
    ensures var name := if m.rewardOrCommission == env.consts.commissionValue then env.consts.claimCommissionMethod
                        else env.consts.claimRewardMethod;
            && PlanFor(env, h, v, m).Run?
            && HexDecode(PlanFor(env, h, v, m).exec.sessionArgs) == Ok(env.abi(ClaimArgs(name)).value)
  {
  }

  /**
   * A vote or unvote target with neither contract prefix still executes,
   * with the encoding of an empty argument list.
   */
  lemma VoteWithoutPrefixExecutes(env: Executor.Env, h: Helpers, v: Validators, store: map<seq<byte>, Value>,
                                  ctx: Executor.Context, b: Executor.BlockState, m: Msg, simulate: bool,
                                  execReply: Result<ExecuteResult, string>, commitReply: CommitReply)
    requires m.MsgVote? || m.MsgUnvote?
    requires !HasPrefix(m.targetContractAddress, env.consts.urefPrefix) && !HasPrefix(m.targetContractAddress, env.consts.hashPrefix)
    requires env.abi(PayAmountArgs(env.consts, m.fee)).Ok?
    ensures PlanFor(env, h, v, m).Run?
    ensures HexDecode(PlanFor(env, h, v, m).exec.sessionArgs) == Ok(OrEmpty(env.abi([])))
    ensures HandleSpec(env, h, v, store, ctx, b, m, simulate, execReply, commitReply).calls.execute.Some?
  {
    assert SessionArgs(env.consts, h, m) == [];
    ProxyCallPlan(env, h, v, m);
    var e := PlanFor(env, h, v, m).exec;
    Executor.ExecuteIssued(env, store, ctx, b, e, simulate, execReply, commitReply);
  }

  /**
   * EditValidator runs execute before it looks at whether the validator
   * exists: with no such validator it pays "0", the engine is still asked,
   * outside simulation the Commit results are still installed, and the
   * answer is the missing-validator error.
   */
  lemma EditValidatorExecutesFirst(env: Executor.Env, h: Helpers, v: Validators, store: map<seq<byte>, Value>,
                                   ctx: Executor.Context, b: Executor.BlockState, m: Msg,
                                   res: ExecuteResult, commitReply: CommitReply)
    requires m.MsgEditValidator? && !v.editFound
    requires env.abi(PayAmountArgs(env.consts, "0")).Ok? && env.abi(PayAmountArgs(env.consts, m.fee)).Ok?
    ensures var o := HandleSpec(env, h, v, store, ctx, b, m, false, Ok(res), commitReply);
            && o.result == Answer(CodeUnknownRequest, UnknownValidator)
            && o.writes == []
            && o.calls.execute.Some? && o.calls.commit.Some?
            && o.installed == Some(Executor.Installed(commitReply.postStateHash, commitReply.bonds))
  {
  }

  /**
   * CreateValidator checks, in order, the operator, the consensus key, the
   * description and the key type, and answers before any execute.
   */
  lemma CreateValidatorChecksFirst(env: Executor.Env, h: Helpers, v: Validators, m: Msg)
    requires m.MsgCreateValidator?
    ensures v.ownerExists ==> PlanFor(env, h, v, m) == Reply([], ValidatorOwnerExists)
    ensures !v.ownerExists && v.consPubKeyExists ==> PlanFor(env, h, v, m) == Reply([], ValidatorPubKeyExists)
    ensures !v.ownerExists && !v.consPubKeyExists && v.descriptionError.Some? ==>
              PlanFor(env, h, v, m) == Reply([], InvalidDescription(v.descriptionError.value))
    ensures && !v.ownerExists && !v.consPubKeyExists && v.descriptionError.None?
            && v.allowedPubKeyTypes.Some? && v.pubKeyType !in v.allowedPubKeyTypes.value ==>
              PlanFor(env, h, v, m) == Reply([], PubKeyTypeNotSupported(v.pubKeyType, v.allowedPubKeyTypes.value))
    ensures PlanFor(env, h, v, m).Run? <==>
              && !v.ownerExists && !v.consPubKeyExists && v.descriptionError.None?
              && (v.allowedPubKeyTypes.Some? ==> v.pubKeyType in v.allowedPubKeyTypes.value)
              && env.proxyContractHash.Some?
  {
  }

  /**
   * CreateValidator records the validator exactly when it answers OK; with a
   * proxy contract that needs execute to succeed with an empty log.
   */
  lemma CreateValidatorRegisters(env: Executor.Env, h: Helpers, v: Validators, store: map<seq<byte>, Value>,
                                 ctx: Executor.Context, b: Executor.BlockState, m: Msg, simulate: bool,
                                 execReply: Result<ExecuteResult, string>, commitReply: CommitReply)
    requires m.MsgCreateValidator?
    ensures var o := HandleSpec(env, h, v, store, ctx, b, m, simulate, execReply, commitReply);
            && (o.result == Answer(CodeOK, "") <==> o.writes == [Validator(m.validatorAddress), ValidatorByConsAddr(m.validatorAddress)])
            && (o.writes != [] <==> o.result == Answer(CodeOK, ""))
  {
  }

  /** A transfer creates the recipient's account exactly when execute succeeded. */
  lemma TransferCreatesRecipient(env: Executor.Env, h: Helpers, v: Validators, store: map<seq<byte>, Value>,
                                 ctx: Executor.Context, b: Executor.BlockState, m: Msg, simulate: bool,
                                 execReply: Result<ExecuteResult, string>, commitReply: CommitReply)
    requires m.MsgTransfer?
    ensures var o := HandleSpec(env, h, v, store, ctx, b, m, simulate, execReply, commitReply);
            && (o.writes == [AccountIfNotExists(m.toAddress)] <==> o.result.code == CodeOK)
            && (o.writes == [] <==> o.result.code == CodeUnknownRequest)
  {
  }

  /**
   * MsgExecute registers every address it found in the arguments before it
   * parses them, so the writes stay even when parsing or encoding fails.
   */
  lemma ExecuteRegistersAddresses(env: Executor.Env, h: Helpers, v: Validators, store: map<seq<byte>, Value>,
                                  ctx: Executor.Context, b: Executor.BlockState, m: Msg, simulate: bool,
                                  execReply: Result<ExecuteResult, string>, commitReply: CommitReply)
    requires m.MsgExecute? && h.replaceBech32(m.exec.sessionArgs).Ok?
    ensures var o := HandleSpec(env, h, v, store, ctx, b, m, simulate, execReply, commitReply);
            var addrs := h.replaceBech32(m.exec.sessionArgs).value.addresses;
            && |addrs| <= |o.writes|
            && forall i :: 0 <= i < |addrs| ==> o.writes[i] == AccountIfNotExists(addrs[i])
  {
  }

  /** Any other message type is refused with the unrecognized-type error and nothing is executed. */
  lemma UnrecognizedRefused(env: Executor.Env, h: Helpers, v: Validators, store: map<seq<byte>, Value>,
                            ctx: Executor.Context, b: Executor.BlockState, typeName: string, simulate: bool,
                            execReply: Result<ExecuteResult, string>, commitReply: CommitReply)
    ensures HandleSpec(env, h, v, store, ctx, b, Unrecognized(typeName), simulate, execReply, commitReply)
            == Handled(UnknownRequest("unrecognized execution layer messgae type: " + typeName), [], NoCalls, None)
  {
  }
}
