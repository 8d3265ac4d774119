/**
 * The state-root registry (keeper.go): one flat key-value store that maps
 * block hashes to the engine's state roots and holds four singleton entries.
 * Values are stored as structured entries; their binary encoding is not
 * part of this model.
 */
module Registry {
  import opened Wrappers
  import opened Bytes
  import opened GoStrings
  import opened Engine

  /** The entry stored per block: the engine state root of that block. */
  datatype UnitHashMap = UnitHashMap(eeState: seq<byte>)

  const ZeroUnit: UnitHashMap := UnitHashMap([])

  /** The genesis configuration; only its protocol version is read by the core. */
  datatype GenesisConf = GenesisConf(protocolVersion: ProtocolVersion, rest: seq<byte>)

  const ZeroGenesisConf: GenesisConf := GenesisConf(ProtocolVersion(0, 0, 0), [])

  /** A genesis account, kept opaque. */
  datatype Account = Account(encoded: seq<byte>)

  datatype Value =
    | UnitEntry(unit: UnitHashMap)
    | ConfEntry(conf: GenesisConf)
    | AccountsEntry(accounts: seq<Account>)
    | TextEntry(text: string)
    | BlobEntry(bytes: seq<byte>)

  /** A setter that can panic reports it instead of returning. */
  datatype Outcome = Done | Panic(message: string)

  const GenesisKey: seq<byte> := Ascii("genesis")
  const GenesisConfKey: seq<byte> := Ascii("genesisconf")
  const GenesisAccountsKey: seq<byte> := Ascii("genesisaccounts")
  const ChainNameKey: seq<byte> := Ascii("chainname")
  const CurrentBlockHashKey: seq<byte> := Ascii("currentblockhash")

  const NilAccountsPanic: string := "Nil is not allowed for GenesisAccounts"
  const EmptyChainNamePanic: string := "Empty string is not allowed for ChainName"

  /** The store key of a block: the empty block hash is the sentinel "genesis". */
  function EntryKey(blockHash: seq<byte>): (key: seq<byte>)
    ensures blockHash == [] ==> key == GenesisKey
    ensures blockHash != [] ==> key == blockHash
  {
    if blockHash == [] then GenesisKey else blockHash
  }

  /** The root setters' check: a root is non-empty and exactly 32 bytes long. */
  predicate IsRoot(root: seq<byte>) {
    !(root == [] || |root| != 32)
  }

  /** Reading a block entry; a missing or foreign entry decodes as the zero value. */
  function UnitAt(store: map<seq<byte>, Value>, key: seq<byte>): (u: UnitHashMap)
    ensures key !in store ==> u == ZeroUnit
  {
    if key in store && store[key].UnitEntry? then store[key].unit else ZeroUnit
  }

  /** Reading the genesis configuration; a missing entry decodes as the zero value. */
  function ConfAt(store: map<seq<byte>, Value>): (conf: GenesisConf)
    ensures GenesisConfKey !in store ==> conf == ZeroGenesisConf
  {
    if GenesisConfKey in store && store[GenesisConfKey].ConfEntry? then store[GenesisConfKey].conf
    else ZeroGenesisConf
  }

  lemma SingletonKeysDistinct()
    ensures |{GenesisKey, GenesisConfKey, GenesisAccountsKey, ChainNameKey, CurrentBlockHashKey}| == 5
  {
    assert |GenesisKey| == 7 && |GenesisConfKey| == 11 && |GenesisAccountsKey| == 15;
    assert |ChainNameKey| == 9 && |CurrentBlockHashKey| == 16;
  }

  // -------------------------------------------------------------- toBytes

  /** Bech32 account address to public-key bytes (not part of this model). */
  type AccountDecoder = string -> Result<seq<byte>, string>

  /**
   * toBytes: the key kind selects the decoding of the key text.  "uref",
   * "local" and "hash" are hex, "address" is a bech32 account address, and
   * any other kind is an error.
   */
  function ToBytes(keyType: string, key: string, decodeAccount: AccountDecoder): (r: Result<seq<byte>, string>)
    ensures keyType == "address" ==> r == decodeAccount(key)
    ensures keyType in {"uref", "local", "hash"} ==>
              (HexDecode(key).Ok? ==> r == Ok(HexDecode(key).value)) &&
              (HexDecode(key).Err? ==> r == Err(HexErrorText(HexDecode(key).error)))
    ensures keyType !in {"address", "uref", "local", "hash"} ==> r == Err("Unknown QueryKey type: " + keyType)
  {
    match keyType
    case "address" => decodeAccount(key)
    case "uref" => HexBytes(key)
    case "local" => HexBytes(key)
    case "hash" => HexBytes(key)
    case _ => Err("Unknown QueryKey type: " + keyType)
  }

  function HexBytes(key: string): Result<seq<byte>, string> {
    match HexDecode(key)
    case Ok(b) => Ok(b)
    case Err(e) => Err(HexErrorText(e))
  }

  /** The hex key kinds accept every hex encoding, and give back its bytes. */
  lemma ToBytesHexRoundTrip(keyType: string, b: seq<byte>, decodeAccount: AccountDecoder)
    requires keyType in {"uref", "local", "hash"}
    ensures ToBytes(keyType, HexEncode(b), decodeAccount) == Ok(b)
  {
    HexRoundTrip(b);
  }

  // -------------------------------------------------------------- queries

  /** A state value as the engine returns it, kept opaque. */
  datatype StateValue = StateValue(encoded: seq<byte>)

  datatype QueryRequest = QueryRequest(
    stateHash: seq<byte>,
    keyType: string,
    keyBytes: seq<byte>,
    path: seq<string>,
    protocolVersion: ProtocolVersion)

  /** grpc.Query's results: a value and an error text. */
  datatype QueryReply = QueryReply(value: StateValue, error: string)

  datatype BalanceRequest = BalanceRequest(stateHash: seq<byte>, address: seq<byte>, protocolVersion: ProtocolVersion)

  /** grpc.QueryBalance's results: a decimal amount and an error text. */
  datatype BalanceReply = BalanceReply(amount: string, error: string)

  /** The engine's query services, as functions of the request. */
  type QueryService = QueryRequest -> QueryReply
  type BalanceService = BalanceRequest -> BalanceReply

  class Keeper {
    var store: map<seq<byte>, Value>

    /** Every block entry in the store holds a well-formed root: non-empty and 32 bytes long. */
    predicate RootsWellFormed()
      reads this
    {
      forall key :: key in store && store[key].UnitEntry? ==> IsRoot(store[key].unit.eeState)
    }

    constructor ()
      ensures store == map[]
      ensures RootsWellFormed()
    {
      store := map[];
    }

    // ------------------------------------------------------ block roots

    method SetUnitHashMap(blockHash: seq<byte>, unit: UnitHashMap) returns (ok: bool)
      modifies this
      ensures old(RootsWellFormed()) ==> RootsWellFormed()
      ensures ok <==> IsRoot(unit.eeState)
      ensures store == if ok then old(store)[EntryKey(blockHash) := UnitEntry(unit)] else old(store)
      ensures ok ==> GetUnitHashMap(blockHash) == unit
    {
      var key := EntryKey(blockHash);
      if unit.eeState == [] || |unit.eeState| != 32 {
        return false;
      }
      store := store[key := UnitEntry(unit)];
      return true;
    }

    /** The entry of a block; an unset block reads as the zero value (an empty root). */
    function GetUnitHashMap(blockHash: seq<byte>): (u: UnitHashMap)
      reads this
      ensures EntryKey(blockHash) !in store ==> u == ZeroUnit
    {
      UnitAt(store, EntryKey(blockHash))
    }

    /** SetEEState writes the same entry SetUnitHashMap writes, holding only the root. */
    method SetEEState(blockHash: seq<byte>, eeState: seq<byte>) returns (ok: bool)
      modifies this
      ensures old(RootsWellFormed()) ==> RootsWellFormed()
      ensures ok <==> IsRoot(eeState)
      ensures store == if ok then old(store)[EntryKey(blockHash) := UnitEntry(UnitHashMap(eeState))] else old(store)
      ensures ok ==> GetEEState(blockHash) == eeState
    {
      var key := EntryKey(blockHash);
      if eeState == [] || |eeState| != 32 {
        return false;
      }
      var unit := UnitHashMap(eeState);
      store := store[key := UnitEntry(unit)];
      return true;
    }

    function GetEEState(blockHash: seq<byte>): (root: seq<byte>)
      reads this
      ensures root == GetUnitHashMap(blockHash).eeState
      ensures EntryKey(blockHash) !in store ==> root == []
    {
      UnitAt(store, EntryKey(blockHash)).eeState
    }

    // ------------------------------------------------ singleton entries

    function GetGenesisConf(): (conf: GenesisConf)
      reads this
      ensures GenesisConfKey !in store ==> conf == ZeroGenesisConf
    {
      ConfAt(store)
    }

    method SetGenesisConf(conf: GenesisConf)
      modifies this
      ensures old(RootsWellFormed()) ==> RootsWellFormed()
      ensures store == old(store)[GenesisConfKey := ConfEntry(conf)]
      ensures GetGenesisConf() == conf
      ensures GenesisProtocolVersion() == conf.protocolVersion
    {
      store := store[GenesisConfKey := ConfEntry(conf)];
    }

    /** The protocol version recorded at genesis (MustGetProtocolVersion). */
    function GenesisProtocolVersion(): (pv: ProtocolVersion)
      reads this
      ensures pv == GetGenesisConf().protocolVersion
    {
      GetGenesisConf().protocolVersion
    }

    /** None stands for Go's nil slice, returned when the entry was never written. */
    function GetGenesisAccounts(): (accounts: Option<seq<Account>>)
      reads this
      ensures GenesisAccountsKey !in store ==> accounts == None
    {
      if GenesisAccountsKey in store && store[GenesisAccountsKey].AccountsEntry? then
        Some(store[GenesisAccountsKey].accounts)
      else None
    }

    /** A nil account list panics and writes nothing; any other list, empty too, is stored. */
    method SetGenesisAccounts(accounts: Option<seq<Account>>) returns (outcome: Outcome)
      modifies this
      ensures old(RootsWellFormed()) ==> RootsWellFormed()
      ensures accounts.None? ==> outcome == Panic(NilAccountsPanic) && store == old(store)
      ensures accounts.Some? ==>
                && outcome == Done
                && store == old(store)[GenesisAccountsKey := AccountsEntry(accounts.value)]
                && GetGenesisAccounts() == accounts
    {
      if accounts.None? {
        return Panic(NilAccountsPanic);
      }
      store := store[GenesisAccountsKey := AccountsEntry(accounts.value)];
      return Done;
    }

    function GetChainName(): (name: string)
      reads this
      ensures ChainNameKey !in store ==> name == ""
    {
      if ChainNameKey in store && store[ChainNameKey].TextEntry? then store[ChainNameKey].text else ""
    }

    /** The empty name panics and writes nothing. */
    method SetChainName(chainName: string) returns (outcome: Outcome)
      modifies this
      ensures old(RootsWellFormed()) ==> RootsWellFormed()
      ensures chainName == "" ==> outcome == Panic(EmptyChainNamePanic) && store == old(store)
      ensures chainName != "" ==>
                && outcome == Done
                && store == old(store)[ChainNameKey := TextEntry(chainName)]
                && GetChainName() == chainName
    {
      if chainName == "" {
        return Panic(EmptyChainNamePanic);
      }
      store := store[ChainNameKey := TextEntry(chainName)];
      return Done;
    }

    /** The current block hash; never written reads as empty (Go's nil). */
    function GetCurrentBlockHash(): (blockHash: seq<byte>)
      reads this
      ensures CurrentBlockHashKey !in store ==> blockHash == []
    {
      if CurrentBlockHashKey in store && store[CurrentBlockHashKey].BlobEntry? then store[CurrentBlockHashKey].bytes
      else []
    }

    method SetCurrentBlockHash(blockHash: seq<byte>)
      modifies this
      ensures old(RootsWellFormed()) ==> RootsWellFormed()
      ensures store == old(store)[CurrentBlockHashKey := BlobEntry(blockHash)]
      ensures GetCurrentBlockHash() == blockHash
    {
      store := store[CurrentBlockHashKey := BlobEntry(blockHash)];
    }

    // ---------------------------------------------------------- queries

    /** The root of the current block, which the "simple" queries use. */
    function CurrentRoot(): (root: seq<byte>)
      reads this
      ensures root == GetEEState(GetCurrentBlockHash())
    {
      GetUnitHashMap(GetCurrentBlockHash()).eeState
    }

    /**
     * The request GetQueryResult sends: the path is split on '/', and
     * joining its parts gives the path back; the version is the genesis one.
     */
    function QueryRequestFor(stateHash: seq<byte>, keyType: string, keyBytes: seq<byte>, path: string): (req: QueryRequest)
      reads this
      ensures req.stateHash == stateHash && req.keyType == keyType && req.keyBytes == keyBytes
      ensures Join(req.path, "/") == path
      ensures req.protocolVersion == GetGenesisConf().protocolVersion
    {
      SplitJoin(path, '/');
      QueryRequest(stateHash, keyType, keyBytes, Split(path, '/'), GenesisProtocolVersion())
    }

    /**
     * GetQueryResult: a key that does not decode is an error and no query is
     * made; otherwise the engine is asked at the given root, and the answer
     * is a value exactly when the engine reported no error.
     */
    function GetQueryResult(stateHash: seq<byte>, keyType: string, keyData: string, path: string,
                            decodeAccount: AccountDecoder, query: QueryService, f: Formatter): (r: Result<StateValue, string>)
      reads this
      ensures ToBytes(keyType, keyData, decodeAccount).Err? ==> r == Err(ToBytes(keyType, keyData, decodeAccount).error)
      ensures ToBytes(keyType, keyData, decodeAccount).Ok? ==>
                var reply := query(QueryRequestFor(stateHash, keyType, ToBytes(keyType, keyData, decodeAccount).value, path));
                && (r.Ok? <==> reply.error == "")
                && (r.Ok? ==> r.value == reply.value)
                && (r.Err? && '%' !in reply.error ==> r.error == reply.error)
    {
      var arrPath := Split(path, '/');
      var protocolVersion := GenesisProtocolVersion();
      match ToBytes(keyType, keyData, decodeAccount)
      case Err(e) => Err(e)
      case Ok(keyBytes) =>
        var reply := query(QueryRequest(stateHash, keyType, keyBytes, arrPath, protocolVersion));
        if reply.error != "" then Err(Sprintf0(f, reply.error)) else Ok(reply.value)
    }

    /** GetQueryResultSimple: the same query, at the root registered for the current block. */
    function GetQueryResultSimple(keyType: string, keyData: string, path: string,
                                  decodeAccount: AccountDecoder, query: QueryService, f: Formatter): (r: Result<StateValue, string>)
      reads this
      ensures r == GetQueryResult(CurrentRoot(), keyType, keyData, path, decodeAccount, query, f)
    {
      var unitHash := GetUnitHashMap(GetCurrentBlockHash());
      var arrPath := Split(path, '/');
      match ToBytes(keyType, keyData, decodeAccount)
      case Err(e) => Err(e)
      case Ok(keyBytes) =>
        var protocolVersion := GenesisProtocolVersion();
        var reply := query(QueryRequest(unitHash.eeState, keyType, keyBytes, arrPath, protocolVersion));
        if reply.error != "" then Err(Sprintf0(f, reply.error)) else Ok(reply.value)
    }

    /** GetQueryBalanceResult: a balance exactly when the engine reported no error. */
    function GetQueryBalanceResult(stateHash: seq<byte>, address: seq<byte>, queryBalance: BalanceService, f: Formatter): (r: Result<string, string>)
      reads this
      ensures var reply := queryBalance(BalanceRequest(stateHash, address, GetGenesisConf().protocolVersion));
              && (r.Ok? <==> reply.error == "")
              && (r.Ok? ==> r.value == reply.amount)
              && (r.Err? && '%' !in reply.error ==> r.error == reply.error)
    {
      var reply := queryBalance(BalanceRequest(stateHash, address, GenesisProtocolVersion()));
      if reply.error != "" then Err(Sprintf0(f, reply.error)) else Ok(reply.amount)
    }

    /** GetQueryBalanceResultSimple: the same query, at the root registered for the current block. */
    function GetQueryBalanceResultSimple(address: seq<byte>, queryBalance: BalanceService, f: Formatter): (r: Result<string, string>)
      reads this
      ensures r == GetQueryBalanceResult(CurrentRoot(), address, queryBalance, f)
    {
      var unitHash := GetUnitHashMap(GetCurrentBlockHash());
      var reply := queryBalance(BalanceRequest(unitHash.eeState, address, GenesisProtocolVersion()));
      if reply.error != "" then Err(Sprintf0(f, reply.error)) else Ok(reply.amount)
    }
  }

  /** With no current block hash recorded, the current root is the genesis entry's. */
  lemma UnsetCurrentBlockUsesGenesis(k: Keeper)
    requires CurrentBlockHashKey !in k.store
    ensures k.CurrentRoot() == UnitAt(k.store, GenesisKey).eeState
  {
  }

  /** Under the invariant every root read back is the empty zero value or 32 bytes long. */
  lemma StoredRootsWellFormed(k: Keeper, blockHash: seq<byte>)
    requires k.RootsWellFormed()
    ensures k.GetEEState(blockHash) == [] || |k.GetEEState(blockHash)| == 32
  {
    var key := EntryKey(blockHash);
    if key in k.store && k.store[key].UnitEntry? {
      assert IsRoot(k.store[key].unit.eeState);
    }
  }

  /**
   * Registering a root for a block and making that block current makes both
   * implicit-root queries ask the engine at that root.  The one exception is
   * a block hash equal to the current-block-hash key, whose entry the second
   * write overwrites in the shared store.
   */
  method RegisterCurrentRoot(k: Keeper, blockHash: seq<byte>, root: seq<byte>,
                             keyType: string, keyData: string, path: string, address: seq<byte>,
                             decodeAccount: AccountDecoder, query: QueryService, queryBalance: BalanceService, f: Formatter)
    returns (ok: bool)
    modifies k
    ensures ok <==> IsRoot(root)
    ensures ok && blockHash != CurrentBlockHashKey ==>
              && k.CurrentRoot() == root
              && k.GetQueryResultSimple(keyType, keyData, path, decodeAccount, query, f)
                 == k.GetQueryResult(root, keyType, keyData, path, decodeAccount, query, f)
              && k.GetQueryBalanceResultSimple(address, queryBalance, f)
                 == k.GetQueryBalanceResult(root, address, queryBalance, f)
  {
    ok := k.SetEEState(blockHash, root);
    k.SetCurrentBlockHash(blockHash);
    if ok && blockHash != CurrentBlockHashKey {
      assert EntryKey(blockHash) != CurrentBlockHashKey by {
        if blockHash == [] {
          assert |GenesisKey| != |CurrentBlockHashKey|;
        }
      }
    }
  }
}
