/**
 * The request and response shapes of the execution engine's RPC interface.
 * The engine itself is a separate process: what it answers is supplied to
 * the model as a value, and the model records the requests it issues.
 */
module Engine {
  import opened Wrappers
  import opened Bytes

  datatype ProtocolVersion = ProtocolVersion(major: nat, minor: nat, patch: nat)

  /** An opaque state delta (a TransformEntry); forwarded, never inspected. */
  datatype Effect = Effect(key: seq<byte>, transform: seq<byte>)

  /** A validator's stake as reported by Commit. */
  datatype Bond = Bond(validatorPublicKey: seq<byte>, stake: string)

  /** How a deploy payload names its code (util.HASH and the other kinds). */
  datatype SessionType = HashSession | OtherSession(tag: string)

  /** A session or payment payload as built by util.MakeDeployPayload. */
  datatype DeployPayload = DeployPayload(kind: SessionType, code: seq<byte>, abiArgs: seq<byte>)

  datatype DeployItem = DeployItem(
    address: seq<byte>,
    session: DeployPayload,
    payment: DeployPayload,
    authorizationKeys: seq<seq<byte>>,
    deployHash: seq<byte>,
    gasPrice: nat)

  datatype ExecuteRequest = ExecuteRequest(
    parentStateHash: seq<byte>,
    blockTime: nat,
    deploys: seq<DeployItem>,
    protocolVersion: ProtocolVersion)

  /** The error a deploy result reports; anything but gas or exec is no error. */
  datatype DeployError = NoError | GasError | ExecError(message: string)

  datatype DeployResult = DeployResult(error: DeployError, effects: seq<Effect>)

  /** The variants of ExecuteResponse; `description` is the response's text form. */
  datatype ExecuteResult =
    | ExecSuccess(deployResults: seq<DeployResult>)
    | ExecMissingParent(hash: seq<byte>)
    | ExecOther(description: string)

  datatype CommitRequest = CommitRequest(
    preStateHash: seq<byte>,
    effects: seq<Effect>,
    protocolVersion: ProtocolVersion)

  /** grpc.Commit's three results: the new root, the bonds and an error text. */
  datatype CommitReply = CommitReply(postStateHash: seq<byte>, bonds: seq<Bond>, error: string)

  datatype StepRequest = StepRequest(
    parentStateHash: seq<byte>,
    blockTime: nat,
    blockHeight: nat,
    protocolVersion: ProtocolVersion)

  datatype StepResult =
    | StepSuccess(postStateHash: seq<byte>, effects: seq<Effect>)
    | StepMissingParent(hash: seq<byte>)
    | StepError(message: string)
    | StepOther(description: string)

  /** The requests a call issued to the engine, in the order they were issued. */
  datatype Calls = Calls(execute: Option<ExecuteRequest>, step: Option<StepRequest>, commit: Option<CommitRequest>)

  const NoCalls: Calls := Calls(None, None, None)

  const Two64: int := 0x1_0000_0000_0000_0000

  /** Go's uint64(x) for an int64 x: two's-complement wrap-around. */
  function Uint64(x: int): (r: nat)
    ensures r < Two64
    ensures 0 <= x < Two64 ==> r == x
  {
    x % Two64
  }
}
