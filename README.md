# Godwoken/Polyjuice deployment helpers — a Dafny model

The repository is a set of deployment and upgrade scripts for EVM contracts
that run either on a plain Ethereum-compatible chain or on the Godwoken
layer-2 rollup (through Polyjuice). This project models the decision and
string logic the scripts share:

- **Short-address derivation** (`Common.EthEoaAddressToGodwokenShortAddress`):
  an Ethereum address is checked for shape (42 characters, case-sensitive
  `0x` prefix, no digit check). Its layer-2 lock script is built: the ETH
  account lock code hash, hash type `type`, and as args the rollup type hash
  followed by the lower-cased address body. The short address is the first 42
  characters of that script's hash. The hash (lumos `computeScriptHash`) is a
  function-valued parameter.
- **Network classification** (`Common.IsGodwoken`, `Common.IsGodwokenDevnet`)
  and the choice of RPC provider and deployer wallet that follows from it.
- **Deployer account initialisation** (`Common.InitGwkAccountIfNeeded`): a
  decision over the account balance, the network suffix, the Godwoken API URL
  and the deposit service's answer. It ends in one of: nothing to do, a
  warning, an error, or a successful deposit. The RPC balance read and the
  HTTP deposit are inputs.
- **Initializer data** (`InitializerData.GetInitializerData`): `"0x"` for an
  empty initializer name, otherwise the ABI encoding of the named call (the
  encoder is a function-valued parameter). The upgrade and downgrade flows
  then pick `upgrade` for `"0x"` and `upgradeAndCall` otherwise.
- **Ledger file names** (`LedgerFile.LedgerFileName`): the
  `<script>[-<suffix>].json` name each script keeps its transaction history
  under.

Files: `wrappers.dfy` (Option, Result), `strings.dfy` (the JavaScript string
operations used), `common.dfy` (common.ts), `initializer_data.dfy`
(upgrades/getInitializerData.ts and its callers' `"0x"` branch),
`ledger_file.dfy` (the ledger file name expression).

## Model

| member | source | states |
|---|---|---|
| `Strings.ToLower` | common.ts:115 | every character of the result is the lower-cased character at the same position; same length; the result has no upper-case letter |
| `Strings.ToLowerIdentifiesCase` | common.ts:115 | two strings lower-case to the same string if and only if they differ at most in letter case |
| `Strings.StartsWith` | common.ts:108 | `startsWith` holds exactly when the prefix is no longer than the string and agrees with it character by character |
| `Strings.LowerChar` | common.ts:115 | an upper-case ASCII letter moves to its lower-case letter; every other character is kept; the result is never an upper-case letter |
| `Strings.Prefix` | common.ts:118 | `slice(0, n)` is a prefix of the input, of length n or the whole input when shorter |
| `Common.IsEthAddressFormat` | common.ts:108 | the guard accepts exactly the 42-character strings whose first two characters are `0` and lower-case `x` |
| `Common.AddressBody` | common.ts:115 | `slice(2)` of a well-formed address is its 40-character body, and `0x` followed by it gives back the address |
| `Common.Layer2Lock` | common.ts:112-116 | the lock has the configured code hash and hash type `type`; its args start with the rollup type hash, followed by exactly 40 lower-case characters equal to the address body up to letter case |
| `Common.EthEoaAddressToGodwokenShortAddress` | common.ts:105-120 | an error exactly when the input is not 42 characters long or lacks the `0x` prefix; otherwise a prefix of the lock's script hash of length 42 (or the whole hash when shorter) |
| `Common.ShortAddressShape` | common.ts:117-119 | with a 66-character `0x` script hash, the short address is accepted, has length 42 and starts with `0x` |
| `Common.Layer2LockIgnoresCase` | common.ts:112-116 | two well-formed addresses get the same lock script if and only if their bodies differ at most in letter case |
| `Common.ShortAddressIgnoresCase` | common.ts:115-119 | addresses that differ only in the letter case of their body get the same short address |
| `Common.NoHexDigitCheck` | common.ts:108-110 | the check does not look at the digits: `0x` followed by any 40 characters passes the format guard, and the derivation then succeeds (the hash being a total function) |
| `Common.UpperCasePrefixRejected` | common.ts:108-110 | the prefix check is case-sensitive: `0X` followed by 40 characters is rejected |
| `Common.IsGodwokenDevnet` | common.ts:64 | the body is the specification: the suffix is exactly `gwk-devnet`; the contract adds that every devnet suffix also passes the Godwoken test |
| `Common.IsGodwoken` | common.ts:122 | holds exactly when a suffix is present and its first three characters are `g`, `w`, `k` |
| `Common.DevnetIsGodwoken` | common.ts:64 | the `gwk-devnet` suffix also satisfies the `gwk` prefix test, so the devnet is a Godwoken network |
| `Common.ProviderOf` | common.ts:44-61 | the Polyjuice wallet is wired to the Polyjuice provider and only it; the default wallet to the default provider |
| `Common.Rpc` | common.ts:122-123 | the Polyjuice provider is chosen if and only if the suffix is present and starts with `gwk` |
| `Common.Deployer` | common.ts:122-124 | the Polyjuice wallet is chosen if and only if the network is Godwoken, and the chosen wallet is connected to the chosen provider |
| `Common.InitGwkAccountIfNeeded` | common.ts:66-103 | a rejected balance read propagates and nothing else happens; positive balance: no-op on any network; zero balance off Godwoken: warning only; zero balance on Godwoken: an error or a deposit, never a warning; a deposit request to `<API URL>/deposit` for the account is sent exactly on the devnet with the API URL set; each error case holds exactly under its condition; a rejected deposit request propagates its reason; an `ok` answer without a `data` object is an error; success, with that object's account id, exactly when the status is `ok` and `data` is present |
| `InitializerData.InitializerName` | upgrades/getInitializerData.ts:5 | an omitted initializer defaults to the non-empty name `initialize`; a given one is kept |
| `InitializerData.GetInitializerData` | upgrades/getInitializerData.ts:3-14 | an empty name yields `0x`; a non-empty name yields the encoder's answer for that name and arguments, error included |
| `InitializerData.EmptyNameSkipsEncoder` | upgrades/getInitializerData.ts:8-10 | an empty name yields `0x` whatever the interface, arguments and encoder |
| `InitializerData.OmittedInitializerEncodesInitialize` | upgrades/getInitializerData.ts:5-13 | an omitted initializer never takes the `0x` short-cut: it encodes a call to `initialize` |
| `InitializerData.DataDependsOnlyOnCall` | upgrades/getInitializerData.ts:12-13 | two encoders that agree on (interface, name, arguments) give the same initializer data |
| `InitializerData.ProxyAdminCallFor` | upgrades/upgradeProxy.ts:106-121 | a plain `upgrade` if and only if the data is `0x`; otherwise `upgradeAndCall` carrying that data |
| `InitializerData.UpgradeCall` | upgrades/upgradeProxy.ts:57-121 | with the flow's default initializer `""`, an omitted or empty initializer gives a plain `upgrade`; a named one gives the call chosen from its encoding, and an encoding error propagates |
| `InitializerData.UpgradeAndCallIffNamed` | upgrades/downgradeProxy.ts:106-121 | when the encoder yields `0x` plus at least a selector, `upgradeAndCall` is chosen if and only if an initializer is named |
| `LedgerFile.EffectiveSuffix` | scripts/create2.ts:52 | the suffix counts exactly when it is present and non-empty (JavaScript truthiness), and is then kept unchanged |
| `LedgerFile.LedgerFileName` | scripts/create2.ts:52 | the name starts with the script's base name and ends in `.json`; with a non-empty suffix, `-<suffix>` sits in between; otherwise nothing does |
| `LedgerFile.LedgerFileNameInjective` | upgrades/deployProxy.ts:52 | for one script, two networks share a ledger file if and only if their suffixes agree, treating an empty suffix as absent |

## Left out

- The transaction ledger (`TransactionSubmitter`: loading, skipping recorded steps, submitting, persisting receipts). TransactionSubmitter.ts is not part of this model; only its call sites exist, so its skip, persist and overwrite behaviour cannot be stated from code.
- The per-script `main` functions and the deploy, upgrade, downgrade and ownership-transfer flows: sequences of contract deployments and calls over the network. Only their initializer-data branch and their ledger file name are modelled.
- Cryptography: `utils.computeScriptHash` is a total function parameter, so the model takes it never to throw, including on args that are not hex; `solidityKeccak256` and message signing in scripts/multi-sign-wallet.ts are foreign libraries.
- The signed-transaction expiry in scripts/multi-sign-wallet.ts: it reads the wall clock.
- I/O and environment: dotenv loading, the exit when `DEPLOYER_PRIVATE_KEY` is missing, provider and wallet construction, the RPC balance read, the HTTP deposit call and console logging. The balance, the environment values and the deposit response are inputs.
- `ROLLUP_TYPE_HASH` and `ETH_ACCOUNT_LOCK_CODE_HASH` are taken as strings. An unset `ROLLUP_TYPE_HASH` would be concatenated into the lock args as the text `undefined` (common.ts:27, 115); that case is not modelled.
- An unset `ETH_ACCOUNT_LOCK_CODE_HASH` is not concatenated: it becomes `code_hash: undefined` in the script handed to `computeScriptHash` (common.ts:28, 113, 117). What the hash library does with it is not part of this model.
- `Strings.LowerChar`, `Strings.ToLower`: lower-case only the ASCII letters A-Z; a non-ASCII upper-case letter such as `À` is kept, where JavaScript maps it to `à`. JavaScript's `toLowerCase` also maps non-ASCII letters, which the format check lets through. JavaScript lengths count UTF-16 code units, while the model counts characters.
- `Common.EthEoaAddressToGodwokenShortAddress`: the 42-character check counts characters. JavaScript counts UTF-16 code units, so an input with characters outside the Basic Multilingual Plane has a different length in the source.
- `Common.InitGwkAccountIfNeeded`: the account id of a successful deposit is only logged by the source. The model returns it as the outcome. A missing answer `status` is modelled as some value other than `ok`. A rejected balance read or deposit request is modelled as an error reason; which exceptions the libraries raise is not modelled.
- `InitializerData.UpgradeAndCallIffNamed` assumes the encoder returns `0x` followed by at least a 4-byte selector. ABI encoding is not modelled.
- `handleExpectedRevert`'s parsing of RPC error bodies in scripts/multicall2.ts: it sniffs the shape of a foreign response.
- hardhat.config.ts: static tool configuration.
- `create2ContractAddressToGodwokenShortAddress`, `initGWAccountIfNeeded` and `isGodwokenV0` are imported by scripts/create2.ts and scripts/multicall.ts, but their definitions are not part of this model.
