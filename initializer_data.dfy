/**
 * Selection of the data passed to a proxy's initializer, and the way the
 * proxy tooling uses it to choose between `upgrade` and `upgradeAndCall`.
 *
 * The contract factory's ABI interface is an opaque value `iface`; looking a
 * function up in it and ABI-encoding a call (`getFunction` followed by
 * `encodeFunctionData`, which throw on an unknown name or bad arguments) is
 * the function-valued parameter `encode`.
 */
module InitializerData {
  import opened Wrappers
  import opened Strings

  /** The call data that means "no initializer call". */
  const EmptyCallData: string := "0x"

  /** The initializer name `getInitializerData` uses when none is given. */
  const DefaultInitializer: string := "initialize"

  /** The default parameter `initializer = "initialize"`. */
  function InitializerName(initializer: Option<string>): (name: string)
    ensures initializer.Some? ==> name == initializer.value
    ensures initializer.None? ==> name == DefaultInitializer && name != ""
  {
    initializer.GetOr(DefaultInitializer)
  }

  /**
   * `getInitializerData(ImplFactory, initializer, args)`: "0x" for an empty
   * name, otherwise the ABI encoding of a call to the named function.
   */
  function GetInitializerData<I, A>(
    iface: I, initializer: Option<string>, args: A, encode: (I, string, A) -> Result<string, string>
  ): (r: Result<string, string>)
    ensures InitializerName(initializer) == "" ==> r == Success(EmptyCallData)
    ensures InitializerName(initializer) != "" ==> r == encode(iface, InitializerName(initializer), args)
  {
    var name := InitializerName(initializer);
    if name == "" then Success(EmptyCallData) else encode(iface, name, args)
  }

  /** An empty name never reaches the encoder: any two encoders give "0x". */
  lemma EmptyNameSkipsEncoder<I, A>(
    iface: I, args: A, encode1: (I, string, A) -> Result<string, string>,
    encode2: (I, string, A) -> Result<string, string>
  )
    ensures GetInitializerData(iface, Some(""), args, encode1) == Success(EmptyCallData)
    ensures GetInitializerData(iface, Some(""), args, encode1) == GetInitializerData(iface, Some(""), args, encode2)
  {
  }

  /** An omitted initializer encodes a call to `initialize`, never the "0x" short-cut. */
  lemma OmittedInitializerEncodesInitialize<I, A>(
    iface: I, args: A, encode: (I, string, A) -> Result<string, string>
  )
    ensures GetInitializerData(iface, None, args, encode) == encode(iface, DefaultInitializer, args)
  {
  }

  /** The result depends on the encoder only through its answer for (iface, name, args). */
  lemma DataDependsOnlyOnCall<I, A>(
    iface: I, initializer: Option<string>, args: A,
    encode1: (I, string, A) -> Result<string, string>, encode2: (I, string, A) -> Result<string, string>
  )
    requires encode1(iface, InitializerName(initializer), args) == encode2(iface, InitializerName(initializer), args)
    ensures GetInitializerData(iface, initializer, args, encode1) == GetInitializerData(iface, initializer, args, encode2)
  {
  }

  /** Encoded call data as an ABI encoder produces it: "0x", then at least a 4-byte selector. */
  predicate IsEncodedCall(data: string) {
    StartsWith(data, EmptyCallData) && |data| >= 10
  }

  /** The two ProxyAdmin calls that switch a proxy's implementation. */
  datatype ProxyAdminCall =
    | Upgrade                          // proxyAdmin.upgrade(proxy, implementation)
    | UpgradeAndCall(callData: string) // proxyAdmin.upgradeAndCall(proxy, implementation, callData)

  /** A plain `upgrade` exactly when the initializer data is "0x"; otherwise `upgradeAndCall` with that data. */
  function ProxyAdminCallFor(initializerData: string): (c: ProxyAdminCall)
    ensures c.Upgrade? <==> initializerData == EmptyCallData
    ensures c.UpgradeAndCall? ==> c.callData == initializerData
  {
    if initializerData == EmptyCallData then Upgrade else UpgradeAndCall(initializerData)
  }

  /**
   * The call the upgrade and downgrade flows submit: `initializer` defaults to
   * "" there, and an encoding error propagates.
   */
  function UpgradeCall<I, A>(
    iface: I, initializer: Option<string>, args: A, encode: (I, string, A) -> Result<string, string>
  ): (r: Result<ProxyAdminCall, string>)
    ensures initializer.None? || initializer == Some("") ==> r == Success(Upgrade)
    ensures initializer.Some? && initializer.value != "" ==>
      match encode(iface, initializer.value, args)
      case Failure(e) => r == Failure(e)
      case Success(d) => r == Success(ProxyAdminCallFor(d))
  {
    match GetInitializerData(iface, Some(initializer.GetOr("")), args, encode)
    case Failure(e) => Failure(e)
    case Success(data) => Success(ProxyAdminCallFor(data))
  }

  /** With a well-behaved encoder, `upgradeAndCall` is chosen exactly when an initializer is named. */
  lemma UpgradeAndCallIffNamed<I, A>(
    iface: I, initializer: Option<string>, args: A, encode: (I, string, A) -> Result<string, string>
  )
    requires initializer.Some? && initializer.value != "" ==>
      var d := encode(iface, initializer.value, args); d.Success? && IsEncodedCall(d.value)
    ensures var r := UpgradeCall(iface, initializer, args, encode);
      r.Success? && (r.value.UpgradeAndCall? <==> initializer.Some? && initializer.value != "")
  {
  }
}
