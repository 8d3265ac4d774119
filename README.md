# Execution-layer bridge: a Dafny model

This project models the part of a Cosmos-SDK chain that hands transactions
to an external execution engine (the "execution layer"). It proves
properties of that model.

The model covers five pieces:

- **The two-phase executor** (`execute`, `executeStep` in
  `x/executionlayer/handler.go`). It builds one deploy and asks the engine
  to execute it on a parent state root. It classifies the engine's answer
  and accumulates a textual log. Outside simulation it commits the effects
  and installs the committed root and bonds on the candidate block.
- **The message handlers and `NewHandler`'s dispatch.** Each handler builds a
  typed argument list for the proxy contract, calls `execute` and turns
  its `(result, log)` into an `sdk.Result`. CreateValidator and
  EditValidator also check the validator and write to the validator
  keeper.
- **The state-root registry** (`x/executionlayer/keeper.go`). It is a
  key-value store from block hashes to engine state roots, plus four
  singleton entries: the genesis configuration, the genesis accounts, the
  chain name and the current block hash. It also holds the key-kind
  dispatch used by queries.
- **The staking store-key layouts** pinned by the hex vectors of
  `x/staking/types/keys_test.go`.
- **The profiler** (`x/executionlayer/profile.go`). It buffers timing lines
  and writes them out once, at the hundredth commit.

Engine calls (Execute, Step, Commit, Query, QueryBalance) are not
performed. Their replies are parameters, and every operation returns the
requests it issued as a `Calls` value. So "Commit is never called" is
`calls.commit == None`.

Foreign code whose source is not part of this model is a function-typed
field of a record the caller supplies:

- `Executor.Env`: ABI encoding, the message sign hash, and the proxy
  contract hash.
- `Executor.Texts`: the texts of the `types` error constructors.
- `Dispatcher.Helpers`: the bech32 decoders and the JSON argument reader.
- `GoStrings.Formatter`: Go's `fmt` with verbs.

The method-name and value constants of the `types` package are kept abstract
as fields of `DeployArgs.Constants`. The validator-keeper and
consensus-parameter answers a handler looks at are given as
`Dispatcher.Validators`.

The modules are:

- `Wrappers`: Option and Result.
- `Bytes`: hex, big-endian integers, bit inversion, byte order.
- `GoStrings`: `strings`, `strconv` and `fmt` as the core uses them.
- `Engine`: the engine's request and response messages.
- `DeployArgs`: the typed deploy arguments and the builders.
- `Registry`: the keeper.
- `Executor`: execute and executeStep.
- `Dispatcher`: the handlers.
- `StakingKeys`
- `Profile`

Stateful code keeps its form:

- The candidate block (`Executor.CandidateBlock`), the keeper
  (`Registry.Keeper`) and the profiler (`Profile.ProfileObject`) are
  classes whose methods update their fields in place.
- Execute, ExecuteStep and AddLogs are tied by their `ensures` to pure
  specification functions of the old state: `ExecuteSpec`, `StepSpec` and
  `AddLogsSpec`. The module-level method `Dispatcher.Handle` is tied to
  `HandleSpec` in the same way. The lemmas are proved about those
  functions.
- The keeper's setters state their new store as an explicit map update.
  Each also preserves `RootsWellFormed`, the invariant that every stored
  block entry holds a well-formed root.
- The loop over deploy results and WriteFile's loop are `while` loops,
  proved against the fold they compute.

Where the code and its evident design differ, the model follows the code:

- Execute installs Commit's outputs even when the log is not empty
  (handler.go:732-734).
- The handlers drop the `getResult` they build when ABI encoding or bech32
  decoding fails. They go on with the empty value (handler.go:86-88 and
  the like).
- A vote target with neither contract prefix still executes, with an empty
  argument list.
- EditValidator executes before it checks that the validator exists.
- The Redelegate amount is declared `U512` but holds an `Option<U512>`.
- The per-result log line is `fmt.Sprintf(log, err)` (handler.go:713).
  The accumulated log is used as the format string.

## Model

| member | source | states |
|---|---|---|
| Executor.Execute | x/executionlayer/handler.go:637-742 | The results, the issued requests and the new candidate block are those of `ExecuteSpec` on the old block. Only the candidate block is written. |
| Executor.ScanResults | x/executionlayer/handler.go:700-715 | The loop over deploy results ends in the scan `ScanAll` defines for the whole result list. |
| Executor.ScanStep | x/executionlayer/handler.go:703-714 | One iteration appends the result's effects and only extends the log. The error variable is unset exactly when it was unset and the result carries no error. Once an error is set, the log is non-empty. |
| Executor.DeployErrorText | x/executionlayer/handler.go:704-709 | Only a gas or exec error yields an error text. |
| Executor.ScanAllFacts | x/executionlayer/handler.go:700-715 | The accumulated effects are every result's effects in order. The log is empty, and the error unset, exactly when no deploy result reported an error. |
| Executor.InterpretSuccess | x/executionlayer/handler.go:702-715 | A Success response yields all effects, and an empty log iff there is no deploy error. |
| Executor.Interpret | x/executionlayer/handler.go:716-721 | MissingParent logs the missing-parent error built from the hex of the hash. Any other response logs "Unknown result : " and its text. Neither yields effects. |
| Executor.DeployFor | x/executionlayer/handler.go:676-688 | The deploy's address is the executing address, which is also its only authorization key. Its hash is the sign hash and its gas price is the basic gas constant. Its session is the message's code and decoded arguments. Its payment is the proxy contract called by hash. |
| Executor.Install | x/executionlayer/handler.go:732-734 | Installing Commit's outputs replaces the state and bonds and keeps the protocol version. Installing nothing leaves the block as it was. |
| Executor.ExecuteParentRoot | x/executionlayer/handler.go:642-694 | The Execute request goes to the registry root of the height with the genesis protocol version when simulating. Otherwise it goes to the block's root and version. It carries the block time as uint64 and exactly one deploy. |
| Executor.ExecuteIssued | x/executionlayer/handler.go:666-695 | Once the payment arguments encode and the session arguments decode, exactly one Execute request is issued, and this states its exact contents. |
| Executor.SimulateLeavesBlock | x/executionlayer/handler.go:724-726 | Simulation never commits and never changes the block. Once the engine answered, the result is true iff the log is empty. |
| Executor.DeliverInstallsCommit | x/executionlayer/handler.go:729-741 | Outside simulation, Commit is issued on the parent root with the accumulated effects. Its error text is appended to the log, and its root and bonds are installed whatever the log holds. The result is true iff the final log is empty. |
| Executor.CommitErrorStillInstalls | x/executionlayer/handler.go:729-741 | A Commit error makes the call fail, yet the block still takes Commit's outputs. |
| Executor.EarlyFailureLeavesBlock | x/executionlayer/handler.go:666-698 | An ABI-encoding, hex-decoding or transport failure returns false with that error's text. It issues no Commit and leaves the block alone. The Execute request is sent iff both encodings succeeded. |
| Executor.SuccessClassification | x/executionlayer/handler.go:700-741 | For a Success response: a simulation succeeds iff no deploy reported an error, Commit receives every result's effects, and a delivery succeeds iff no deploy reported an error and Commit reported none. |
| Executor.MissingParentSimulated | x/executionlayer/handler.go:716-726 | A simulated MissingParent answer fails with the missing-parent text and touches nothing. |
| Executor.UnknownResultFails | x/executionlayer/handler.go:719-721 | An unknown response fails with a log starting "Unknown result : " and its text. |
| Executor.ExecuteStep | x/executionlayer/handler.go:744-781 | The results, the issued requests and the new candidate block are those of `StepSpec` on the old block. |
| Executor.StepAtomic | x/executionlayer/handler.go:744-781 | The block changes exactly when the step succeeds, and it succeeds iff Step succeeded and Commit reported no error. Commit is applied to the step's post-state hash with its effects. The Step request carries the block's root, time, height and version. |
| Dispatcher.GetResult | x/executionlayer/handler.go:783-793 | The code is OK exactly when ok, and the log is passed through. |
| Dispatcher.ProxyExec | x/executionlayer/handler.go:90-97 | The MsgExecute a handler builds calls the proxy contract by hash, and its argument text decodes back to the encoded arguments. |
| Dispatcher.AccountWrites | x/executionlayer/handler.go:112-114 | One account write per address found, in order. |
| Dispatcher.Finish | x/executionlayer/handler.go:173-225 | Plain handlers return `getResult(result, log)` and write nothing. Transfer writes the recipient account only on success. CreateValidator and EditValidator answer OK only for a true result with an empty log and no earlier error. Validator writes happen exactly when they answer OK. The failures are reported in the code's order. CreateValidator reports a malformed consensus key first, then the engine's log. EditValidator reports an unknown validator first, then the description update's error, then the key's, then the engine's log. |
| Dispatcher.Handle | x/executionlayer/handler.go:21-55 | The result, the keeper writes, the issued requests and the new block are those of `HandleSpec`. |
| Dispatcher.MethodNameFirst | x/executionlayer/handler.go:62-597 | Every proxy-calling handler's argument list starts with its own method-name constant. It is empty exactly for a vote or unvote target with neither prefix. |
| Dispatcher.ProxyCallExecutes | x/executionlayer/handler.go:62-103 | A proxy-calling handler always executes and writes nothing first. It calls the proxy contract by hash, from the sender, with arguments that hex-decode to the encoded list. When encoding failed they are the empty text. Only Transfer has a follow-up: the recipient's account write. |
| Dispatcher.EncodingErrorIgnored | x/executionlayer/handler.go:85-98 | When encoding the session arguments fails, the error is dropped, and execute runs with empty session arguments and reaches the engine. |
| Dispatcher.ClaimRejectsUnknownValue | x/executionlayer/handler.go:602-609 | A claim value that is neither commission nor reward is answered "Must be reward or commission". Nothing is executed, written or installed. |
| Dispatcher.ClaimSelectsMethod | x/executionlayer/handler.go:599-635 | A valid claim value executes the encoding of the matching claim method, commission first. |
| Dispatcher.VoteWithoutPrefixExecutes | x/executionlayer/handler.go:437-513 | A vote or unvote target with neither prefix still executes, with the encoding of the empty list, and reaches the engine. |
| Dispatcher.EditValidatorExecutesFirst | x/executionlayer/handler.go:187-226 | For an unknown validator, the engine is asked and Commit is applied and installed. The answer is still the missing-validator error, with no writes. |
| Dispatcher.CreateValidatorChecksFirst | x/executionlayer/handler.go:132-158 | The owner, consensus-key, description and key-type checks answer in that order, before execute. A key type outside the configured list is answered with that list. Execute runs iff all pass and a proxy contract is set. |
| Dispatcher.CreateValidatorRegisters | x/executionlayer/handler.go:155-185 | The validator and its consensus address are written exactly when the answer is OK with an empty log. |
| Dispatcher.TransferCreatesRecipient | x/executionlayer/handler.go:98-102 | The recipient account is created exactly when the answer is OK. |
| Dispatcher.ExecuteRegistersAddresses | x/executionlayer/handler.go:106-130 | Every address found while replacing bech32 names is written, in order. The writes come first and stay even when parsing or encoding fails later. |
| Dispatcher.UnrecognizedRefused | x/executionlayer/handler.go:50-52 | Any other message type gets the unknown-request error with the type's name. Nothing else happens. |
| DeployArgs.TransferArgs | x/executionlayer/handler.go:64-83 | A well-typed list: the transfer method, the recipient bytes, and the amount as U512. |
| DeployArgs.BondArgs | x/executionlayer/handler.go:230-243 | A well-typed list: the bond method and the amount as U512. |
| DeployArgs.UnbondArgs | x/executionlayer/handler.go:264-282 | The only named arguments, "method" and "amount". The amount is an Option of U512. |
| DeployArgs.DelegateArgs | x/executionlayer/handler.go:304-323 | A well-typed list: the delegate method, the validator bytes, and the amount as U512. |
| DeployArgs.UndelegateArgs | x/executionlayer/handler.go:345-367 | A well-typed list: the undelegate method, the validator bytes, and the amount as an Option of U512. |
| DeployArgs.RedelegateArgs | x/executionlayer/handler.go:389-417 | The redelegate method, source and destination bytes, and a fourth argument typed U512 that holds an Option value. So the list is ill-typed, and well-typed without its last argument. |
| DeployArgs.TargetKey | x/executionlayer/handler.go:441-495 | The URef prefix gives a URef key with access NONE, checked first. Otherwise the hash prefix gives a hash key. With neither prefix there is no key. |
| DeployArgs.VoteArgs | x/executionlayer/handler.go:437-495 | Empty exactly when the target has no key. Otherwise: the vote method, the target key and the amount as U512. |
| DeployArgs.UnvoteArgs | x/executionlayer/handler.go:515-579 | Empty exactly when the target has no key. Otherwise: the unvote method, the target key and the amount as an Option of U512. |
| DeployArgs.VoteKeyExclusive | x/executionlayer/handler.go:441-495 | With a prefix, the vote key is a URef exactly when the URef prefix matched, and a hash key otherwise. |
| DeployArgs.ClaimMethod | x/executionlayer/handler.go:602-609 | Commission selects the commission method, reward selects the reward method, and anything else is the "Must be reward or commission" error. |
| DeployArgs.ClaimArgs | x/executionlayer/handler.go:611-617 | A single well-typed argument naming the method. |
| DeployArgs.PayAmountArgs | x/executionlayer/handler.go:795-813 | A well-typed list: the payment method and the amount as U512. |
| Bytes.HexDecode | x/executionlayer/handler.go:671-674 | A successful decode halves the length. An odd-length text is an error. |
| Bytes.HexRoundTrip | x/executionlayer/handler.go:671-674 | Decoding the hex a handler produced gives its bytes back, so the session arguments reach the engine unchanged. |
| Registry.EntryKey | x/executionlayer/keeper.go:44-46 | The empty block hash becomes the key "genesis". Any other hash is its own key. |
| Registry.Keeper.SetUnitHashMap | x/executionlayer/keeper.go:43-60 | True iff the root is a non-empty 32-byte root. Then only the block's entry is written, and reading it back gives the entry. Otherwise the store is unchanged. |
| Registry.Keeper.GetUnitHashMap | x/executionlayer/keeper.go:63-72 | An unset block reads as the zero entry. |
| Registry.Keeper.SetEEState | x/executionlayer/keeper.go:75-96 | True iff the root is a non-empty 32-byte root. Then it writes the same entry SetUnitHashMap writes, holding the root, and GetEEState gives the root back. Otherwise the store is unchanged. |
| Registry.Keeper.GetEEState | x/executionlayer/keeper.go:99-108 | The root of GetUnitHashMap's entry, and the empty root for an unset block. |
| Registry.ToBytes | x/executionlayer/keeper.go:111-132 | "address" goes through the bech32 decoder. "uref", "local" and "hash" are hex-decoded, with hex's error text on failure. Any other kind is the "Unknown QueryKey type: " error. |
| Bytes.HexErrorTextVectors | x/executionlayer/keeper.go:122-126 | A hex key with an invalid é is reported as "encoding/hex: invalid byte: U+00E9 'é'". The soft hyphen and a newline get only their code, and 'g' is quoted. |
| Registry.ToBytesHexRoundTrip | x/executionlayer/keeper.go:122-123 | The hex key kinds accept every hex encoding and give back its bytes. |
| Registry.Keeper.GetGenesisConf | x/executionlayer/keeper.go:197-204 | An unset configuration reads as the zero value. |
| Registry.Keeper.SetGenesisConf | x/executionlayer/keeper.go:207-211 | Writes only the genesisconf key. The getter gives the value back, and the protocol version becomes the configuration's. |
| Registry.Keeper.GetGenesisAccounts | x/executionlayer/keeper.go:214-223 | Unset accounts read as nil. |
| Registry.Keeper.SetGenesisAccounts | x/executionlayer/keeper.go:226-233 | A nil list panics and writes nothing. Any other list, empty too, is written under its own key only and reads back. |
| Registry.Keeper.GetChainName | x/executionlayer/keeper.go:236-240 | An unset chain name reads as "". |
| Registry.Keeper.SetChainName | x/executionlayer/keeper.go:243-249 | The empty name panics and writes nothing. Any other name is written under its own key only and reads back. |
| Registry.Keeper.GetCurrentBlockHash | x/executionlayer/keeper.go:252-257 | An unset current block hash reads as empty. |
| Registry.Keeper.SetCurrentBlockHash | x/executionlayer/keeper.go:260-263 | Writes only the currentblockhash key, and the getter gives the value back. |
| Registry.Keeper.CurrentRoot | x/executionlayer/keeper.go:154-157 | The root GetEEState gives for the current block hash. |
| Registry.Keeper.QueryRequestFor | x/executionlayer/keeper.go:137-144 | The request carries the given root, key type and key bytes and the genesis protocol version. Joining its path parts with '/' gives back the path it was split from. |
| Registry.Keeper.GetQueryResult | x/executionlayer/keeper.go:135-150 | A key that does not decode is its error, and no query is made. Otherwise the answer is a value iff the engine's error text is empty, and then it is the engine's value. A verb-free error text is the error itself. |
| Registry.Keeper.GetQueryResultSimple | x/executionlayer/keeper.go:154-171 | Equals GetQueryResult at the root registered for the current block hash. |
| Registry.Keeper.GetQueryBalanceResult | x/executionlayer/keeper.go:174-182 | The engine is asked at the given root with the genesis version. The answer is a balance iff its error text is empty, and then it is the engine's amount. A verb-free error text is the error itself. |
| Registry.Keeper.GetQueryBalanceResultSimple | x/executionlayer/keeper.go:185-194 | Equals GetQueryBalanceResult at the root registered for the current block hash. |
| Registry.RegisterCurrentRoot | x/executionlayer/keeper.go:75-96 | Registering a root for a block succeeds iff the root is well formed. After that block is made current, both implicit-root queries ask at that root. The exception is a block hash equal to the currentblockhash key. |
| Registry.StoredRootsWellFormed | x/executionlayer/keeper.go:43-108 | While every stored block entry holds a well-formed root, every root read back is empty or 32 bytes long. Every setter preserves this invariant. |
| Registry.UnsetCurrentBlockUsesGenesis | x/executionlayer/keeper.go:63-72 | With no current block hash recorded, the implicit root is the genesis entry's. |
| Registry.SingletonKeysDistinct | x/executionlayer/keeper.go:197-263 | The genesis sentinel and the four singleton keys are five distinct keys. |
| GoStrings.SplitJoin | x/executionlayer/keeper.go:137 | Splitting a query path on '/' loses nothing: joining the parts gives the path back. |
| GoStrings.FormatIntRoundTrip | x/executionlayer/profile.go:65 | The decimal text of a timestamp is all digits after an optional minus, and parses back to the number. |
| GoStrings.TruncDiv | x/executionlayer/profile.go:64 | Go's integer division: the remainder is smaller than the divisor and has the dividend's sign, for negative clock readings too. |
| GoStrings.Sprintf1 | x/executionlayer/handler.go:713 | A verb-free format is copied as the prefix of a strictly longer text that still contains the operand. Go reports the unused operand as `%!(EXTRA string=…)`. |
| StakingKeys.PowerRankKey | x/staking/types/keys_test.go:38-41 | The key is 9 + n bytes: the prefix 0x23, then the power as a big-endian uint64 that reads back, then the operator with every bit inverted, which inverts back. |
| StakingKeys.PowerRankOrdered | x/staking/types/keys_test.go:38-41 | For one operator, a larger non-negative power gives a lexicographically larger key. |
| StakingKeys.PowerRankInjective | x/staking/types/keys_test.go:38-41 | Equal keys have equal powers and operators. |
| StakingKeys.Addr1InvertedTail | x/staking/types/keys_test.go:38 | The 32-byte tail of the vectors is the first test address with every bit inverted. |
| StakingKeys.PowerRankVectors | x/staking/types/keys_test.go:38-41 | The four vectors, for powers 0, 1, 10 and 2^40, byte for byte. |
| StakingKeys.REDByValDstIndexKey | x/staking/types/keys_test.go:58-62 | The prefix 0x36, then the destination, the delegator and the source, each readable at its fixed offset. |
| StakingKeys.REDByValSrcIndexKey | x/staking/types/keys_test.go:79-83 | The prefix 0x35, then the source, the delegator and the destination, each readable at its fixed offset. |
| StakingKeys.REDKeysInjective | x/staking/types/keys_test.go:57-83 | For addresses of one length n, both keys are 1 + 3n bytes and determine the redelegation, and no key is in both indexes. |
| StakingKeys.REDKeysSameAddress | x/staking/types/keys_test.go:57-79 | With one address in all roles, a key is the prefix and that address three times. |
| StakingKeys.REDByValDstVectors | x/staking/types/keys_test.go:57-62 | The three destination-index vectors, byte for byte. |
| StakingKeys.REDByValSrcVectors | x/staking/types/keys_test.go:78-83 | The three source-index vectors, byte for byte. |
| Profile.ProfileObject.constructor | x/executionlayer/profile.go:26-33 | The path is "/tmp/" + name, with no logs, count 0 and beforeTime 0. |
| Profile.ProfileObject.WriteFile | x/executionlayer/profile.go:35-44 | The one write goes to the object's path, with every log concatenated in order. |
| Profile.ProfileObject.AddLogs | x/executionlayer/profile.go:46-77 | The new fields and the write made are those of `AddLogsSpec` on the old fields. |
| Profile.LogLine | x/executionlayer/profile.go:65-72 | A line is prefix, command, tag, decimal value and postfix, separated by single spaces and ending in a newline. |
| Profile.FlushAtLimit | x/executionlayer/profile.go:47-51 | At count 100 the whole buffer is written to the path, the count becomes 101 and nothing is appended. |
| Profile.IgnoredAfterFlush | x/executionlayer/profile.go:52-54 | Past 100, a call changes nothing and writes nothing. |
| Profile.BeforeRecordsTime | x/executionlayer/profile.go:63-70 | A "Before" prefix appends only its timestamp line, with "CheckTx" when simulating and "DeliveTx" otherwise. It records the millisecond timestamp and keeps the count. |
| Profile.OtherAppendsGap | x/executionlayer/profile.go:71-76 | Any other prefix appends the timestamp line and the line with the gap since beforeTime, both with the command word. The count moves by one exactly when the prefix contains "After Commit". |
| Profile.AddLogsMonotone | x/executionlayer/profile.go:46-77 | A call never lowers the count and never passes 101. It only appends to the logs and keeps the path. |
| Profile.WrittenAtMostOnce | x/executionlayer/profile.go:46-54 | Over any sequence of calls the file is written at most once, and never after the flush. |
| Profile.WriteHoldsEarlierLogs | x/executionlayer/profile.go:35-51 | The write goes to the object's path, and its content starts with every line logged before the run. |

## Left out

Engine and network calls:

- `k.client.Execute`, `k.client.Step`, `grpc.Commit`, `grpc.Query` and `grpc.QueryBalance` are network clients. Their replies are parameters and their requests are returned; transport errors are `Err` replies.
- `MustGetProtocolVersion`: the conversion `types.ToProtocolVersion`, and the panic on an invalid version, are not modelled. The genesis configuration stores the protocol version directly.
- handler.go:644 calls `k.GetProtocolVersion`, which is not part of this model. It is taken to be the genesis protocol version that `MustGetProtocolVersion` reads.
- handler.go:643 passes the block height, an int64, where `GetUnitHashMap` takes a byte-slice block hash. The key this yields is the context's `heightKey`.
- `k.GetProxyContractHash` is not part of this model. Its answer is the `proxyContractHash` field of the environment.

Foreign libraries and encodings:

- `util.AbiDeployArgsTobytes`, `util.JsonStringToDeployArgs`, `ReplaceFromBech32ToHex`, and the bech32 parsers `ContractUrefAddressFromBech32`, `ContractHashAddressFromBech32` and `AccAddressFromBech32` are foreign code. They are uninterpreted functions supplied by the caller.
- `util.MakeDeployPayload` (handler.go:682-683) is not part of this model. The payload is the record `Engine.DeployPayload` of its three inputs: the session kind, the code or hash, and the encoded arguments. This treats the payload builder as injective.
- The deploy hash, `util.Blake2b256` of the message's `GetSignBytes`, is the single supplied function `Executor.Env.signHash` of the message. The hashing itself is not modelled.
- `util.EncodeToHexString` (handler.go:126, 717) is taken to be lower-case hex like `hex.EncodeToString`.
- The amino codec (`MarshalBinaryBare`/`UnmarshalBinaryBare`) is not modelled. The store holds structured values; a marshalling failure, which would make a root setter return false, does not occur; an entry of another kind reads as the zero value.
- `types.ToPublicKey` is folded into the supplied address decoder.
- Strings are sequences of characters with one character per byte. There is no UTF-8 encoding.
- The `%#U` rendering in hex's invalid-byte error is spelt out for the single-byte characters a hex text can hold. It gives upper-case hex with at least four digits. It then adds the quoted character when `strconv.IsPrint` holds: printable ASCII and the Latin-1 printables other than the soft hyphen. Characters above U+00FF cannot occur, since a character stands for one byte.
- `GoStrings.Sprintf1`: only formats without a verb are rendered concretely. A format containing '%' is delegated to the supplied formatter, so at handler.go:713 the appended text is known only when the log holds no '%'.
- `Registry.Keeper.GetQueryResult`: `fmt.Errorf(errstr)` is rendered concretely only for a verb-free error text. Other texts go to the supplied formatter.
- `Registry.Keeper.GetQueryBalanceResult`: likewise, its error is known concretely only for a verb-free error text.
- `Registry.RegisterCurrentRoot`: says nothing about a block hash equal to the bytes of "currentblockhash". The code keeps block entries and that singleton in one store, so the second write replaces the block's entry.

Handlers and message types:

- The `sdk.Result` of the sdk error constructors is kept as a tag: ValidatorOwnerExists, ValidatorPubKeyExists, InvalidDescription, PubKeyTypeNotSupported and UnknownRequest. Their ABCI codes and rendered logs are not modelled.
- The `%T` type name in the unrecognized-message error is supplied as text.
- The validator keeper (`GetValidator`, `GetValidatorByConsAddr`, `SetValidator`, `SetValidatorByConsAddr`), `Description.EnsureLength`/`UpdateDescription` and the consensus-parameter key types are not part of this model. Their answers are inputs (`Dispatcher.Validators`), and the writes are returned as `Dispatcher.Write` values. So the description EditValidator stores is not modelled, only that it writes the validator.
- `SetAccountIfNotExists` belongs to a keeper not shown. Its calls are returned as `AccountIfNotExists` writes.
- The event manager and the `sdk.Context` plumbing are left out, and so are the candidate block's other fields.
- Messages are records of only the fields the handlers read. The message types' own validation and sign bytes are in the `types` package, which is not part of this model; the sign hash is a supplied function of the message.

Staking keys:

- `getValidatorPowerRank`, `GetREDByValDstIndexKey` and `GetREDByValSrcIndexKey` are not part of this model. The layouts are the ones the test vectors fix.
- The power is the consensus power; its computation from tokens (`TokensFromConsensusPower`) is not modelled.
- The ed25519 key generation of the test addresses is left out. The three addresses are the 32-byte constants the vectors spell.
- `StakingKeys.PowerRankVectors`, `StakingKeys.REDByValDstVectors` and `StakingKeys.REDByValSrcVectors`: the vectors are stated at byte level and not as hex strings. `Bytes.HexEncodeInjective` makes equal bytes and equal hex texts the same statement.
- `StakingKeys.PowerRankOrdered` covers non-negative powers only. For a negative power, the uint64 conversion wraps and the order does not hold.

Profiler:

- The `time.Now` clock is the `nowNanos` parameter.
- `ioutil.WriteFile` is returned as a `FileWrite` value; its panic on a write error is not modelled.
- The singleton `GetInstance`, with its lazily created global, is left out. `NewProfileObject` is the constructor.
- `Profile.AddLogsSpec`: the timestamp, the gap and the count are unbounded integers. The int64 overflow of a clock reading or a gap is not modelled.

Other files:

- `x/executionlayer/client/cli/query.go` is command-line plumbing and printing, and is not modelled.
- `x/executionlayer/alias.go` holds only aliases, and is not modelled.
