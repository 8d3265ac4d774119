/**
 * The deploy-argument lists the message handlers build (handler.go).  Each
 * argument carries its declared CLType and its value separately, as the
 * protobuf message does, so that a declared type that does not match its
 * value can be seen.
 */
module DeployArgs {
  import opened Wrappers
  import opened Bytes
  import opened GoStrings

  datatype SimpleType = StringT | U8T | U512T | KeyT

  datatype CLType = Simple(t: SimpleType) | ListOf(elem: CLType) | OptionOf(inner: CLType)

  /** The only access right the handlers use is NONE. */
  datatype AccessRights = AccessNone

  datatype Key = URefKey(uref: seq<byte>, access: AccessRights) | HashKey(hash: seq<byte>)

  datatype CLValue =
    | StrValue(s: string)
    | BytesValue(b: seq<byte>)
    | U512Value(decimal: string)       // a big unsigned integer, carried as decimal text
    | OptionValue(inner: Option<CLValue>)
    | KeyValue(key: Key)

  /** A Deploy_Arg: an optional name, the declared type and the value. */
  datatype Arg = Arg(name: string, clType: CLType, value: CLValue)

  /**
   * The string constants of the handlers' types package: method names, the
   * two accepted claim values, the two contract-address prefixes, the basic
   * pay amount and gas price.  Their texts are not part of this model.
   */
  datatype Constants = Constants(
    transferMethod: string,
    bondMethod: string,
    unbondMethod: string,
    delegateMethod: string,
    undelegateMethod: string,
    redelegateMethod: string,
    voteMethod: string,
    unvoteMethod: string,
    claimRewardMethod: string,
    claimCommissionMethod: string,
    paymentMethod: string,
    commissionValue: string,
    rewardValue: string,
    urefPrefix: string,
    hashPrefix: string,
    basicPayAmount: string,
    basicGas: nat)

  /** A bech32 decoder of contract addresses (not part of this model). */
  type AddressParser = string -> Result<seq<byte>, string>

  // ------------------------------------------------------------ typing

  predicate HasType(v: CLValue, t: CLType)
    decreases v
  {
    match v
    case StrValue(_) => t == Simple(StringT)
    case BytesValue(_) => t == ListOf(Simple(U8T))
    case U512Value(_) => t == Simple(U512T)
    case KeyValue(_) => t == Simple(KeyT)
    case OptionValue(o) => t.OptionOf? && (o.Some? ==> HasType(o.value, t.inner))
  }

  /** Every argument's value has the type it declares. */
  predicate WellTyped(args: seq<Arg>) {
    forall i :: 0 <= i < |args| ==> HasType(args[i].value, args[i].clType)
  }

  // ------------------------------------------------- argument shapes

  function StrArg(s: string): Arg { Arg("", Simple(StringT), StrValue(s)) }
  function BytesArg(b: seq<byte>): Arg { Arg("", ListOf(Simple(U8T)), BytesValue(b)) }
  function U512Arg(amount: string): Arg { Arg("", Simple(U512T), U512Value(amount)) }
  function OptionU512Arg(amount: string): Arg {
    Arg("", OptionOf(Simple(U512T)), OptionValue(Some(U512Value(amount))))
  }
  function KeyArg(k: Key): Arg { Arg("", Simple(KeyT), KeyValue(k)) }

  /** The first argument of every list: the contract method to call. */
  predicate CallsMethod(args: seq<Arg>, methodName: string) {
    |args| > 0 && args[0].clType == Simple(StringT) && args[0].value == StrValue(methodName)
  }

  // ------------------------------------------------------------ builders

  /** handlerMsgTransfer: method, recipient bytes, amount. */
  function TransferArgs(c: Constants, toAddress: seq<byte>, amount: string): (r: seq<Arg>)
    ensures WellTyped(r) && |r| == 3 && CallsMethod(r, c.transferMethod)
    ensures r[1].value == BytesValue(toAddress) && r[2].value == U512Value(amount)
  {
    [StrArg(c.transferMethod), BytesArg(toAddress), U512Arg(amount)]
  }

  /** handlerMsgBond: method, amount. */
  function BondArgs(c: Constants, amount: string): (r: seq<Arg>)
    ensures WellTyped(r) && |r| == 2 && CallsMethod(r, c.bondMethod)
    ensures r[1].value == U512Value(amount)
  {
    [StrArg(c.bondMethod), U512Arg(amount)]
  }

  /** handlerMsgUnBond: the only builder whose arguments are named ("method", "amount"). */
  function UnbondArgs(c: Constants, amount: string): (r: seq<Arg>)
    ensures WellTyped(r) && |r| == 2 && CallsMethod(r, c.unbondMethod)
    ensures r[0].name == "method" && r[1].name == "amount"
    ensures r[1].value == OptionValue(Some(U512Value(amount)))
  {
    [Arg("method", Simple(StringT), StrValue(c.unbondMethod)),
     Arg("amount", OptionOf(Simple(U512T)), OptionValue(Some(U512Value(amount))))]
  }

  /** handlerMsgDelegate: method, validator bytes, amount. */
  function DelegateArgs(c: Constants, validator: seq<byte>, amount: string): (r: seq<Arg>)
    ensures WellTyped(r) && |r| == 3 && CallsMethod(r, c.delegateMethod)
    ensures r[1].value == BytesValue(validator) && r[2].value == U512Value(amount)
  {
    [StrArg(c.delegateMethod), BytesArg(validator), U512Arg(amount)]
  }

  /** handlerMsgUndelgate: method, validator bytes, optional amount. */
  function UndelegateArgs(c: Constants, validator: seq<byte>, amount: string): (r: seq<Arg>)
    ensures WellTyped(r) && |r| == 3 && CallsMethod(r, c.undelegateMethod)
    ensures r[1].value == BytesValue(validator) && r[2].value == OptionValue(Some(U512Value(amount)))
  {
    [StrArg(c.undelegateMethod), BytesArg(validator), OptionU512Arg(amount)]
  }

  /**
   * handlerMsgRedelegate: method, source and destination validator, amount.
   * The amount is declared U512 but carries an Option value, so the list is
   * not well typed.
   */
  function RedelegateArgs(c: Constants, src: seq<byte>, dst: seq<byte>, amount: string): (r: seq<Arg>)
    ensures |r| == 4 && CallsMethod(r, c.redelegateMethod)
    ensures r[1].value == BytesValue(src) && r[2].value == BytesValue(dst)
    ensures r[3].clType == Simple(U512T) && r[3].value == OptionValue(Some(U512Value(amount)))
    ensures !WellTyped(r) && WellTyped(r[..3])
  {
    [StrArg(c.redelegateMethod), BytesArg(src), BytesArg(dst),
     Arg("", Simple(U512T), OptionValue(Some(U512Value(amount))))]
  }

  /**
   * The bytes a Go call returned, or the empty zero value when it failed and
   * the caller dropped its error (the handlers do so for bech32 decoding and
   * ABI encoding).
   */
  function OrEmpty(r: Result<seq<byte>, string>): seq<byte> {
    if r.Ok? then r.value else []
  }

  /**
   * The contract key for a vote target: the URef prefix is checked first, then
   * the hash prefix; with neither there is no key.
   */
  function TargetKey(c: Constants, parseURef: AddressParser, parseHash: AddressParser, target: string): (k: Option<Key>)
    ensures HasPrefix(target, c.urefPrefix) ==> k == Some(URefKey(OrEmpty(parseURef(target)), AccessNone))
    ensures !HasPrefix(target, c.urefPrefix) && HasPrefix(target, c.hashPrefix) ==> k == Some(HashKey(OrEmpty(parseHash(target))))
    ensures k.None? <==> !HasPrefix(target, c.urefPrefix) && !HasPrefix(target, c.hashPrefix)
  {
    if HasPrefix(target, c.urefPrefix) then Some(URefKey(OrEmpty(parseURef(target)), AccessNone))
    else if HasPrefix(target, c.hashPrefix) then Some(HashKey(OrEmpty(parseHash(target))))
    else None
  }

  /** handlerMsgVote: method, contract key, amount; empty when the target has neither prefix. */
  function VoteArgs(c: Constants, parseURef: AddressParser, parseHash: AddressParser, target: string, amount: string): (r: seq<Arg>)
    ensures WellTyped(r)
    ensures TargetKey(c, parseURef, parseHash, target).None? <==> r == []
    ensures r != [] ==>
              && |r| == 3 && CallsMethod(r, c.voteMethod)
              && r[1] == KeyArg(TargetKey(c, parseURef, parseHash, target).value)
              && r[2].value == U512Value(amount)
  {
    match TargetKey(c, parseURef, parseHash, target)
    case None => []
    case Some(k) => [StrArg(c.voteMethod), KeyArg(k), U512Arg(amount)]
  }

  /** handlerMsgUnvote: as VoteArgs, with an optional amount. */
  function UnvoteArgs(c: Constants, parseURef: AddressParser, parseHash: AddressParser, target: string, amount: string): (r: seq<Arg>)
    ensures WellTyped(r)
    ensures TargetKey(c, parseURef, parseHash, target).None? <==> r == []
    ensures r != [] ==>
              && |r| == 3 && CallsMethod(r, c.unvoteMethod)
              && r[1] == KeyArg(TargetKey(c, parseURef, parseHash, target).value)
              && r[2].value == OptionValue(Some(U512Value(amount)))
  {
    match TargetKey(c, parseURef, parseHash, target)
    case None => []
    case Some(k) => [StrArg(c.unvoteMethod), KeyArg(k), OptionU512Arg(amount)]
  }

  const ClaimValueError: string := "Must be reward or commission"

  /** The claim method for a claim value; commission is checked first. */
  function ClaimMethod(c: Constants, value: string): (r: Result<string, string>)
    ensures value == c.commissionValue ==> r == Ok(c.claimCommissionMethod)
    ensures value != c.commissionValue && value == c.rewardValue ==> r == Ok(c.claimRewardMethod)
    ensures r.Err? <==> value != c.commissionValue && value != c.rewardValue
    ensures r.Err? ==> r.error == ClaimValueError
  {
    if value == c.commissionValue then Ok(c.claimCommissionMethod)
    else if value == c.rewardValue then Ok(c.claimRewardMethod)
    else Err(ClaimValueError)
  }

  /** handlerMsgClaim: a single method argument. */
  function ClaimArgs(methodName: string): (r: seq<Arg>)
    ensures WellTyped(r) && |r| == 1 && CallsMethod(r, methodName)
  {
    [StrArg(methodName)]
  }

  /** getPayAmountSessionArgsStr, and the payment arguments of execute: pay method, amount. */
  function PayAmountArgs(c: Constants, amount: string): (r: seq<Arg>)
    ensures WellTyped(r) && |r| == 2 && CallsMethod(r, c.paymentMethod)
    ensures r[1].value == U512Value(amount)
  {
    [StrArg(c.paymentMethod), U512Arg(amount)]
  }

  /** A builder's arguments never carry a key of both kinds: the two prefixes are exclusive branches. */
  lemma VoteKeyExclusive(c: Constants, parseURef: AddressParser, parseHash: AddressParser, target: string, amount: string)
    requires HasPrefix(target, c.urefPrefix) || HasPrefix(target, c.hashPrefix)
    ensures var r := VoteArgs(c, parseURef, parseHash, target, amount);
      |r| == 3 && r[1].value.KeyValue? &&
      (r[1].value.key.URefKey? <==> HasPrefix(target, c.urefPrefix)) &&
      (r[1].value.key.HashKey? <==> !HasPrefix(target, c.urefPrefix))
  {
  }
}
