/**
 * The network-dependent helpers shared by every deployment script:
 * the Ethereum-to-Godwoken short-address derivation, the classification of
 * the network suffix, the choice of RPC provider and deployer, and the
 * decision of whether (and how) a deployer account must be initialised.
 *
 * Environment variables, the RPC balance read and the HTTP deposit call are
 * parameters; the lumos script hash is a function-valued parameter.
 */
module Common {
  import opened Wrappers
  import opened Strings

  // ---------------------------------------------------------------------------
  // Short-address derivation
  // ---------------------------------------------------------------------------

  /** The two Polyjuice settings the derivation reads (ROLLUP_TYPE_HASH, ETH_ACCOUNT_LOCK_CODE_HASH). */
  datatype PolyjuiceConfig = PolyjuiceConfig(rollupTypeHash: string, ethAccountLockCodeHash: string)

  /** The `hash_type` of a CKB script. */
  datatype HashType = Data | Type

  /** A CKB lock script, as passed to `utils.computeScriptHash`. */
  datatype Script = Script(codeHash: string, hashType: HashType, args: string)

  /** The single error the derivation throws: "eth address format error!". */
  datatype AddressError = EthAddressFormatError

  const EthAddressLength: nat := 42
  const ShortAddressLength: nat := 42
  const HexPrefix: string := "0x"

  /** The only format check made: 42 characters, starting with a lower-case "0x". No hex-digit check. */
  predicate IsEthAddressFormat(ethAddress: string)
    ensures IsEthAddressFormat(ethAddress) <==> |ethAddress| == 42 && ethAddress[0] == '0' && ethAddress[1] == 'x'
  {
    |ethAddress| == EthAddressLength && StartsWith(ethAddress, HexPrefix)
  }

  /** A script hash as lumos returns it: "0x" followed by 64 characters. */
  predicate IsScriptHash(h: string) {
    |h| == 66 && StartsWith(h, HexPrefix)
  }

  /** The address body: everything after the "0x" prefix. */
  function AddressBody(ethAddress: string): (body: string)
    requires IsEthAddressFormat(ethAddress)
    ensures |body| == 40 && ethAddress == HexPrefix + body
  {
    ethAddress[2..]
  }

  /**
   * The layer-2 lock of an Ethereum account: the ETH account lock, by type,
   * with args = rollup type hash followed by the lower-cased address body.
   */
  function Layer2Lock(cfg: PolyjuiceConfig, ethAddress: string): (lock: Script)
    requires IsEthAddressFormat(ethAddress)
    ensures lock.codeHash == cfg.ethAccountLockCodeHash && lock.hashType == Type
    ensures |lock.args| == |cfg.rollupTypeHash| + 40 && StartsWith(lock.args, cfg.rollupTypeHash)
    ensures IsLowerCase(lock.args[|cfg.rollupTypeHash|..])
    ensures EqualIgnoringCase(lock.args[|cfg.rollupTypeHash|..], AddressBody(ethAddress))
  {
    var args := cfg.rollupTypeHash + ToLower(AddressBody(ethAddress));
    assert args[|cfg.rollupTypeHash|..] == ToLower(AddressBody(ethAddress));
    Script(cfg.ethAccountLockCodeHash, Type, args)
  }

  /**
   * `ethEoaAddressToGodwokenShortAddress`: rejects a malformed address, and
   * otherwise returns the first 42 characters of the hash of its layer-2 lock.
   */
  function EthEoaAddressToGodwokenShortAddress(
    cfg: PolyjuiceConfig, computeScriptHash: Script -> string, ethAddress: string
  ): (r: Result<string, AddressError>)
    ensures r.Failure? <==> !IsEthAddressFormat(ethAddress)
    ensures r.Success? ==>
      var h := computeScriptHash(Layer2Lock(cfg, ethAddress));
      StartsWith(h, r.value) && |r.value| == (if |h| < ShortAddressLength then |h| else ShortAddressLength)
  {
    if !IsEthAddressFormat(ethAddress) then
      Failure(EthAddressFormatError)
    else
      var scriptHash := computeScriptHash(Layer2Lock(cfg, ethAddress));
      Success(Prefix(scriptHash, ShortAddressLength))
  }

  /** With a hash of the usual shape, a short address is a 42-character "0x" string. */
  lemma ShortAddressShape(cfg: PolyjuiceConfig, computeScriptHash: Script -> string, ethAddress: string)
    requires IsEthAddressFormat(ethAddress)
    requires IsScriptHash(computeScriptHash(Layer2Lock(cfg, ethAddress)))
    ensures var r := EthEoaAddressToGodwokenShortAddress(cfg, computeScriptHash, ethAddress);
      r.Success? && |r.value| == ShortAddressLength && StartsWith(r.value, HexPrefix)
  {
  }

  /** Two well-formed addresses get the same lock exactly when their bodies differ at most in letter case. */
  lemma Layer2LockIgnoresCase(cfg: PolyjuiceConfig, a: string, b: string)
    requires IsEthAddressFormat(a) && IsEthAddressFormat(b)
    ensures Layer2Lock(cfg, a) == Layer2Lock(cfg, b) <==> EqualIgnoringCase(AddressBody(a), AddressBody(b))
  {
  }

  /** Addresses that differ only in the letter case of their body share a short address. */
  lemma ShortAddressIgnoresCase(cfg: PolyjuiceConfig, computeScriptHash: Script -> string, a: string, b: string)
    requires IsEthAddressFormat(a) && IsEthAddressFormat(b)
    requires EqualIgnoringCase(AddressBody(a), AddressBody(b))
    ensures EthEoaAddressToGodwokenShortAddress(cfg, computeScriptHash, a)
         == EthEoaAddressToGodwokenShortAddress(cfg, computeScriptHash, b)
  {
    Layer2LockIgnoresCase(cfg, a, b);
  }

  /** The format check does not look at the digits: "0x" followed by any 40 characters is accepted. */
  lemma NoHexDigitCheck(cfg: PolyjuiceConfig, computeScriptHash: Script -> string, body: string)
    requires |body| == 40
    ensures IsEthAddressFormat(HexPrefix + body)
    ensures EthEoaAddressToGodwokenShortAddress(cfg, computeScriptHash, HexPrefix + body).Success?
  {
  }

  /** The prefix check is case-sensitive: "0X" is rejected even at the right length. */
  lemma UpperCasePrefixRejected(cfg: PolyjuiceConfig, computeScriptHash: Script -> string, body: string)
    requires |body| == 40
    ensures EthEoaAddressToGodwokenShortAddress(cfg, computeScriptHash, "0X" + body).Failure?
  {
  }

  // ---------------------------------------------------------------------------
  // Network classification, provider and deployer selection
  // ---------------------------------------------------------------------------

  const DevnetSuffix: string := "gwk-devnet"
  const GodwokenPrefix: string := "gwk"

  /** `isGodwoken`: NETWORK_SUFFIX is set and starts with "gwk". */
  predicate IsGodwoken(networkSuffix: Option<string>)
    ensures IsGodwoken(networkSuffix) <==>
      networkSuffix.Some? && |networkSuffix.value| >= 3
      && networkSuffix.value[0] == 'g' && networkSuffix.value[1] == 'w' && networkSuffix.value[2] == 'k'
  {
    networkSuffix.Some? && StartsWith(networkSuffix.value, GodwokenPrefix)
  }

  /** `isGodwokenDevnet`: NETWORK_SUFFIX is exactly "gwk-devnet". */
  predicate IsGodwokenDevnet(networkSuffix: Option<string>)
    ensures IsGodwokenDevnet(networkSuffix) ==> IsGodwoken(networkSuffix)
  {
    networkSuffix == Some(DevnetSuffix)
  }

  /** The devnet is a Godwoken network. */
  lemma DevnetIsGodwoken(networkSuffix: Option<string>)
    ensures IsGodwokenDevnet(networkSuffix) ==> IsGodwoken(networkSuffix)
  {
  }

  /** The two providers `rpc` chooses between. */
  datatype Provider = PolyjuiceRpc | DefaultRpc

  /** The two wallets `deployer` chooses between. */
  datatype Signer = PolyjuiceDeployer | DefaultDeployer

  /** The provider each deployer wallet is connected to. */
  function ProviderOf(signer: Signer): (p: Provider)
    ensures p == PolyjuiceRpc <==> signer == PolyjuiceDeployer
  {
    match signer
    case PolyjuiceDeployer => PolyjuiceRpc
    case DefaultDeployer => DefaultRpc
  }

  /** `rpc`: the Polyjuice provider exactly on Godwoken networks. */
  function Rpc(networkSuffix: Option<string>): (p: Provider)
    ensures p == PolyjuiceRpc <==> IsGodwoken(networkSuffix)
  {
    if IsGodwoken(networkSuffix) then PolyjuiceRpc else DefaultRpc
  }

  /** `deployer`: the Polyjuice wallet exactly on Godwoken networks, connected to `rpc`. */
  function Deployer(networkSuffix: Option<string>): (d: Signer)
    ensures d == PolyjuiceDeployer <==> IsGodwoken(networkSuffix)
    ensures ProviderOf(d) == Rpc(networkSuffix)
  {
    if IsGodwoken(networkSuffix) then PolyjuiceDeployer else DefaultDeployer
  }

  // ---------------------------------------------------------------------------
  // Account initialisation
  // ---------------------------------------------------------------------------

  /** The GET request `${GODWOKEN_API_URL}/deposit?eth_address=<account>`. */
  datatype DepositRequest = DepositRequest(url: string, ethAddress: string)

  /** The inner `data` object of a deposit answer. */
  datatype DepositData = DepositData(accountId: int)

  /**
   * The body of a deposit answer: its `status` (an absent status is any value
   * other than "ok") and its `data` object, which may be missing.
   */
  datatype DepositResponse = DepositResponse(status: string, data: Option<DepositData>)

  /** Why initialisation throws. */
  datatype InitError =
    | BalanceReadFailed(reason: string)     // the RPC balance read rejected
    | DepositRequired                       // Godwoken network other than the devnet
    | ApiUrlRequired                        // devnet, but GODWOKEN_API_URL is not set
    | DepositRequestFailed(reason: string)  // the HTTP request rejected (network error, non-2xx answer)
    | DepositFailed                         // the answer's status is not "ok"
    | MalformedDepositResponse              // status "ok" but no `data` object to read the account id from

  /** How `initGWKAccountIfNeeded` ends. */
  datatype InitOutcome =
    | AlreadyFunded                 // positive balance: nothing to do
    | ZeroBalanceWarning            // zero balance off Godwoken: a warning is logged
    | InitFailed(error: InitError)  // an exception is thrown
    | Initialized(accountId: int)   // the deposit succeeded

  /** The outcome, together with the deposit request sent, if any. */
  datatype InitRun = InitRun(request: Option<DepositRequest>, outcome: InitOutcome)

  /** The balance was read and is not positive. */
  predicate IsEmptyAccount(balance: Result<int, string>) {
    balance.Success? && balance.value <= 0
  }

  /**
   * `initGWKAccountIfNeeded(account)`, given the RPC's answer to the balance
   * read, NETWORK_SUFFIX, GODWOKEN_API_URL and the deposit service's answer
   * to a request (either of the two calls may reject).
   */
  function InitGwkAccountIfNeeded(
    account: string, balance: Result<int, string>, networkSuffix: Option<string>, apiUrl: Option<string>,
    deposit: DepositRequest -> Result<DepositResponse, string>
  ): (run: InitRun)
    // a failed balance read propagates, and nothing else happens
    ensures balance.Failure? ==> run == InitRun(None, InitFailed(BalanceReadFailed(balance.error)))
    // a funded account is left alone, on every network
    ensures balance.Success? && balance.value > 0 ==> run == InitRun(None, AlreadyFunded)
    // off Godwoken an empty account only draws a warning
    ensures IsEmptyAccount(balance) && !IsGodwoken(networkSuffix) ==> run == InitRun(None, ZeroBalanceWarning)
    // a deposit is requested exactly for an empty account on the devnet with the API URL set
    ensures run.request.Some? <==> IsEmptyAccount(balance) && IsGodwokenDevnet(networkSuffix) && apiUrl.Some?
    ensures run.request.Some? ==> run.request.value == DepositRequest(apiUrl.value + "/deposit", account)
    // an empty account on Godwoken ends in a deposit or an error, never a warning
    ensures IsEmptyAccount(balance) && IsGodwoken(networkSuffix) ==> run.outcome.InitFailed? || run.outcome.Initialized?
    ensures run.outcome == InitFailed(DepositRequired) <==>
      IsEmptyAccount(balance) && IsGodwoken(networkSuffix) && !IsGodwokenDevnet(networkSuffix)
    ensures run.outcome == InitFailed(ApiUrlRequired) <==>
      IsEmptyAccount(balance) && IsGodwokenDevnet(networkSuffix) && apiUrl.None?
    // the outcome of a deposit request follows the service's answer
    ensures run.outcome.InitFailed? && run.outcome.error.DepositRequestFailed? <==>
      run.request.Some? && deposit(run.request.value).Failure?
    ensures run.outcome.InitFailed? && run.outcome.error.DepositRequestFailed? ==>
      run.outcome.error.reason == deposit(run.request.value).error
    ensures run.outcome == InitFailed(DepositFailed) <==>
      run.request.Some? && deposit(run.request.value).Success? && deposit(run.request.value).value.status != "ok"
    ensures run.outcome == InitFailed(MalformedDepositResponse) <==>
      run.request.Some? && deposit(run.request.value).Success?
      && deposit(run.request.value).value.status == "ok" && deposit(run.request.value).value.data.None?
    ensures run.outcome.Initialized? <==>
      run.request.Some? && deposit(run.request.value).Success?
      && deposit(run.request.value).value.status == "ok" && deposit(run.request.value).value.data.Some?
    ensures run.outcome.Initialized? ==> run.outcome.accountId == deposit(run.request.value).value.data.value.accountId
  {
    DevnetIsGodwoken(networkSuffix);
    match balance
    case Failure(e) => InitRun(None, InitFailed(BalanceReadFailed(e)))
    case Success(b) =>
      if b > 0 then
        InitRun(None, AlreadyFunded)
      else if !IsGodwoken(networkSuffix) then
        InitRun(None, ZeroBalanceWarning)
      else if networkSuffix != Some(DevnetSuffix) then
        InitRun(None, InitFailed(DepositRequired))
      else if apiUrl.None? then
        InitRun(None, InitFailed(ApiUrlRequired))
      else
        var request := DepositRequest(apiUrl.value + "/deposit", account);
        match deposit(request)
        case Failure(e) => InitRun(Some(request), InitFailed(DepositRequestFailed(e)))
        case Success(res) =>
          if res.status != "ok" then
            InitRun(Some(request), InitFailed(DepositFailed))
          else if res.data.None? then
            InitRun(Some(request), InitFailed(MalformedDepositResponse))
          else
            InitRun(Some(request), Initialized(res.data.value.accountId))
  }
}
