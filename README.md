# Cross-VM bridge, wasm store filters and governance proposal status — a Dafny model

This project models three pieces of an EVM + WASM blockchain runtime and proves properties of them.

- **The EVM side of the cross-VM bridge** (`vmbridge_evm.dfy`, module `VmbridgeEvm`).
  - `Handle` processes a `SendToWasm` log. It checks the activation-height gate, then the bridge's enable flag, then decodes the log. A log that does not decode is dropped without error. Otherwise it forwards to the keeper's `SendToWasm` and returns that call's error.
  - `Keeper.SendToEvm` validates the recipient address, then the contract address. It decodes both from bech32, builds the ABI-encoded mint call and runs it through `Keeper.CallEvm` with zero native value. It then decodes the mint result.
  - `Keeper.CallEvm` runs a synthetic EVM call from the fixed module account. On failure nothing is written. On success the transition's writes (storage, code and the accounts it touched) are committed. Then the module account, as read before the transition, is stored with its sequence advanced by one.
  - Each keeper method is proved against a pure specification function (`CallEvmSpec`, `SendToEvmSpec`). The properties are proved about those functions.
- **The wasm module's height-gated store filters** (`wasm_module_adapter.dfy`, module `WasmModuleAdapter`).
  - The deny, commit, prune and version filters decide per (store name, height) relative to the activation ("earth") height.
  - The commit filter stamps the upgrade version on the store at exactly the earth height (`DefaultCommitFilter` on a `CommitKVStore`).
  - `CommitFilter`/`PruneFilter` choose between the deny filter and the default filters.
  - `ExportGenesis` is gated on the same height.
- **Governance proposal types** (`gov_proposal.dfy`, module `GovProposal`).
  - The one-byte proposal status with its string, YAML, byte and (string-level) JSON encodings.
  - The tally record with its `Equals` and empty constructor, and `NewProposal`.
  - The built-in proposal contents with the factory `ContentFromProposalType` and `ProposalHandler`.
  - The registry of valid proposal-type tags as a class whose `RegisterProposalType` rejects duplicates.

`base.dfy` (module `Base`) holds the shared `Byte`, `Uint64`, `Option` and `Result` types.

Collaborators the code calls but does not define are parameters of the model:

- the activation-height gate `HigherThanEarth` and the earth height;
- the ABI decoder of the log and the mint call's encoder and decoder;
- the wasm-side `SendToWasm`;
- `IsETHAddress` and bech32 decoding;
- the chain-configuration lookup, the chain-ID parser and the transaction hash;
- the infinite gas meter's limit and the EVM's `MaxGasLimitPerTx`;
- the state transition `TransitionDb`, given by its result and the writes its working state holds (storage and code, and accounts).

Points where the code behaves differently from what one might expect; the model follows the code:

- Only `Handle` checks the activation height and the enable flag (x/vmbridge/keeper/evm.go:32-40). `SendToEvm` and `CallEvm` check neither, and neither does the model.
- The version filter only tests whether the height argument is negative. Otherwise it reports `(wasm, earth height)`, even when no earth height is set and it is 0 (x/wasm/module_adapter.go:130-138). `DefaultVersionFilter` states exactly that.
- The comment on the log declares `amount` a `string` (x/vmbridge/keeper/evm.go:16). The handler decodes it as a `*big.Int` (x/vmbridge/keeper/evm.go:53). The model decodes an unbounded non-negative integer.
- A mint result that does not decode is not turned into an error of the bridge's own. `SendToEvm` returns whatever `GetMintERC20Output` returns (x/vmbridge/keeper/evm.go:87), and the model passes that decoder's result through unchanged.
- The commit filter has three states (exclude below, include and stamp at, include above the activation height) only if `HigherThanEarth` is closed below and open above the earth height. `CommitFilterThreeStates` proves the three states under exactly that hypothesis.

## Model

| member | source | states |
|---|---|---|
| `VmbridgeEvm.Handle` | x/vmbridge/keeper/evm.go:31-56 | The steps taken are a prefix of height gate, enable gate, decode, forward. A failed height gate returns the unknown-request error with the height. A failed enable gate returns `ErrVMBridgeEnable`. A decode failure returns no error. In all three cases nothing is forwarded. Otherwise `SendToWasm` is called with the contract's address bytes as caller and the decoded recipient, wasm address and amount, and its error is returned. |
| `VmbridgeEvm.FitBytes` | x/vmbridge/keeper/evm.go:72-78 | Converting bytes to an address keeps the rightmost bytes and pads a short input with zeros on the left. |
| `VmbridgeEvm.BytesToAddress` | x/vmbridge/keeper/evm.go:72-78 | The contract and recipient addresses are the rightmost 20 bytes of the decoded account bytes, left-padded with zeros when there are fewer. |
| `VmbridgeEvm.BytesToHash` | x/vmbridge/keeper/evm.go:110 | The EVM transaction hash is 32 bytes: the rightmost 32 bytes of the transaction hash, left-padded with zeros when there are fewer. |
| `VmbridgeEvm.SequenceOf` | x/vmbridge/keeper/evm.go:104-108 | The nonce is the stored account's sequence, and 0 for an account that is created because none exists. |
| `VmbridgeEvm.GasLimitFor` | x/vmbridge/keeper/evm.go:112-115 | The gas limit is `MaxGasLimitPerTx` when the context's limit equals the infinite meter's limit, and the context's limit otherwise. |
| `VmbridgeEvm.NextSequence` | x/vmbridge/keeper/evm.go:143 | `nonce + 1` is exactly one more below the `uint64` maximum and wraps to 0 at it. |
| `VmbridgeEvm.CallEvmSpec` | x/vmbridge/keeper/evm.go:91-147 | A missing chain config gives `ErrChainConfigNotFound` and a bad chain ID gives the parse error. Both happen with no transition and no state change. Otherwise the transition is sent from the module address, with `SequenceOf` the module account as nonce, price 0, the payload and value given, and `GasLimitFor` the context as gas limit. Its error is returned with the state unchanged. On success the storage writes are committed, and every account other than the module account is as the transition left it. The module account is the copy read before the transition, with its sequence set to `nonce + 1` (wrapping at the `uint64` maximum) and its other fields kept, so it overrides whatever the transition wrote to it. |
| `VmbridgeEvm.Keeper.CallEvm` | x/vmbridge/keeper/evm.go:91-147 | The imperative call returns the result of `CallEvmSpec` and leaves the accounts and the committed state it describes. |
| `VmbridgeEvm.SequenceCountsSuccesses` | x/vmbridge/keeper/evm.go:104-146 | As long as the starting sequence plus the number of calls stays within the `uint64` maximum, over any run of calls the module account's sequence grows by exactly the number of successful calls, and failed calls never move it. |
| `VmbridgeEvm.SendToEvmSpec` | x/vmbridge/keeper/evm.go:59-88 | A non-ETH recipient, and then a non-ETH contract, give `(false, ErrIsNotETHAddr)`. Then a bech32 failure of the contract, then of the recipient, and then a failure to encode the mint input each give that failure's own error. Every rejection happens before `CallEvm`, with no state change. `CallEvm` is reached exactly when all checks pass. It is called on the contract's address with value 0 and the mint payload. Its error gives `(false, err)`. Otherwise the result is the decoded mint output of the return bytes. |
| `VmbridgeEvm.Keeper.SendToEvm` | x/vmbridge/keeper/evm.go:59-88 | The imperative method returns the success flag and error of `SendToEvmSpec` and leaves the state it describes. |
| `VmbridgeEvm.SendToEvmSequenceStep` | x/vmbridge/keeper/evm.go:59-88 | A `SendToEvm` that reports success advanced the module account's sequence by exactly one. One rejected before `CallEvm` changed nothing and reports failure. |
| `WasmModuleAdapter.DefaultDenyFilter` | x/wasm/module_adapter.go:97-99 | Excludes exactly the wasm store, at every height. |
| `WasmModuleAdapter.CommitDecision` | x/wasm/module_adapter.go:101-118 | Other stores are included without a stamp. The wasm store is included and stamped exactly at the earth height. At any other height it is excluded exactly when the gate is closed. |
| `WasmModuleAdapter.DefaultCommitFilter` | x/wasm/module_adapter.go:101-118 | Returns "exclude" exactly when `CommitDecision` excludes. It sets the store's upgrade version to the height exactly when the decision stamps and the store is not nil, and otherwise leaves it unchanged. |
| `WasmModuleAdapter.CommitKVStore.SetUpgradeVersion` | x/wasm/module_adapter.go:106-111 | Stamping records the given height as the store's upgrade version. |
| `WasmModuleAdapter.DefaultPruneFilter` | x/wasm/module_adapter.go:119-129 | Excludes exactly the wasm store while the gate is closed, including at the earth height. |
| `WasmModuleAdapter.DefaultVersionFilter` | x/wasm/module_adapter.go:130-138 | Enumerates no entry for a negative height. Otherwise it enumerates exactly one entry, `(wasm, earth height)`. |
| `WasmModuleAdapter.UpgradeHeight` | x/wasm/module_adapter.go:159-161 | The upgrade height is the earth height. |
| `WasmModuleAdapter.CommitFilter` | x/wasm/module_adapter.go:141-146 | The deny filter exactly when the upgrade height is 0, the default commit filter otherwise. |
| `WasmModuleAdapter.PruneFilter` | x/wasm/module_adapter.go:148-153 | The deny filter exactly when the upgrade height is 0, the default prune filter otherwise. |
| `WasmModuleAdapter.Apply` | x/wasm/module_adapter.go:97-129 | Running a filter answers as the deny filter, as the commit decision's "exclude", or as the prune filter, according to which filter it is. |
| `WasmModuleAdapter.InstalledFilters` | x/wasm/module_adapter.go:141-153 | With a non-zero upgrade height the installed commit filter excludes exactly when `CommitDecision` excludes, and the installed prune filter is the default one. With upgrade height 0 both exclude the wasm store, and only it, at every height. |
| `WasmModuleAdapter.ExportGenesis` | x/wasm/module_adapter.go:77-83 | Nothing exactly when the gate is closed at the block height, and the marshalled genesis state otherwise. |
| `WasmModuleAdapter.CommitFilterThreeStates` | x/wasm/module_adapter.go:101-118 | With a gate closed below and open above the earth height, the commit filter excludes below it, includes and stamps at it, and includes without stamping above it. |
| `WasmModuleAdapter.CommitAndPruneAtEarth` | x/wasm/module_adapter.go:101-129 | At the earth height the commit filter never excludes the wasm store. The prune filter excludes it exactly when the gate is still closed there. |
| `WasmModuleAdapter.StampsAtMostOnce` | x/wasm/module_adapter.go:101-118 | Over commits at strictly increasing heights under the default commit filter (the one installed when the upgrade height is non-zero), the upgrade version is stamped at most once. It is stamped exactly once when the store is the wasm store and the earth height is among the heights. |
| `GovProposal.ValidProposalStatus` | x/gov/types/proposal.go:134-143 | True exactly for the bytes 0x01 to 0x05. `StatusNil` is not valid. |
| `GovProposal.StatusString` | x/gov/types/proposal.go:179-199 | Is "" exactly for bytes that are not a valid status, and is always one of the accepted names. |
| `GovProposal.ProposalStatusFromString` | x/gov/types/proposal.go:107-130 | Succeeds exactly on the five names and "". Any other string gives status 0xff and the "is not a valid proposal status" error. A success yields a named status whose `String()` is the input again. |
| `GovProposal.RoundTripFromStatus` | x/gov/types/proposal.go:107-199 | Parsing the `String()` of each valid status and of `StatusNil` gives that status back without error. |
| `GovProposal.StatusNamesAreImage` | x/gov/types/proposal.go:107-199 | The accepted names are exactly the `String()` values of the named statuses. |
| `GovProposal.StatusStringInjective` | x/gov/types/proposal.go:179-199 | Distinct named statuses print differently, so `String()` is a bijection onto the accepted names. |
| `GovProposal.MarshalYaml` | x/gov/types/proposal.go:201-221 | `MarshalYAML` gives the same text as `String()` for every byte. |
| `GovProposal.Marshal` | x/gov/types/proposal.go:146-148 | The byte encoding is exactly one byte: the status value itself. |
| `GovProposal.Unmarshal` | x/gov/types/proposal.go:151-154 | The status is the value of the first byte of non-empty input, and the rest is ignored. Marshalling the result gives that byte back. |
| `GovProposal.MarshalRoundTrip` | x/gov/types/proposal.go:146-154 | Unmarshalling the marshalled status restores it. |
| `GovProposal.UnmarshalJsonText` | x/gov/types/proposal.go:162-176 | A JSON decoding error or an unknown name keeps the current status and returns the error. Otherwise the parsed status replaces it, and its `String()` is the decoded text. |
| `GovProposal.JsonRoundTrip` | x/gov/types/proposal.go:157-176 | Reading back what `MarshalJSON` writes for a named status restores that status. |
| `GovProposal.Equals` | x/gov/types/proposal.go:278-283 | Two tallies are equal exactly when they agree on everything except the two power totals. |
| `GovProposal.EmptyTallyResult` | x/gov/types/proposal.go:266-275 | Total power is the given value, and no vote and no voted power are recorded. |
| `GovProposal.EmptyTalliesAreEqual` | x/gov/types/proposal.go:266-283 | Any two empty tallies are `Equals`, whatever total power they carry. |
| `GovProposal.NewProposal` | x/gov/types/proposal.go:29-39 | A new proposal is in `StatusDepositPeriod` with no deposit. Its tally holds the total voting power and no votes. It carries the given content, id and times, with zero voting times. |
| `GovProposal.ProposalType` | x/gov/types/proposal.go:318-347 | A text proposal's type is "Text" and a software-upgrade proposal's is "SoftwareUpgrade"; any other content reports its own tag. |
| `GovProposal.ContentFromProposalType` | x/gov/types/proposal.go:375-386 | Builds content exactly for "Text" and "SoftwareUpgrade". That content's `ProposalType()` is the requested tag and it carries the given title and description. Every other tag gives nil. |
| `GovProposal.ProposalHandler` | x/gov/types/proposal.go:401-411 | No error exactly for the two built-in proposal types. Any other type gives the unknown-request error naming it. |
| `GovProposal.HandlerAcceptsBuiltContent` | x/gov/types/proposal.go:375-411 | A new proposal with content that `ContentFromProposalType` built is accepted by the handler. |
| `GovProposal.ProposalTypeRegistry.constructor` | x/gov/types/proposal.go:359-362 | Initially exactly "Text" and "SoftwareUpgrade" are valid. |
| `GovProposal.ProposalTypeRegistry.IsValidProposalType` | x/gov/types/proposal.go:392-395 | True exactly for the registered tags. |
| `GovProposal.ProposalTypeRegistry.RegisterProposalType` | x/gov/types/proposal.go:366-372 | Registering an already valid tag panics with "already registered proposal type" and leaves the registry unchanged. Otherwise the tag is added and nothing else changes. Either way the tag is valid afterwards and every previously valid tag stays valid. |

## Left out

- Handle: does not model the panic of `sdk.NewIntFromBigInt` on amounts wider than 255 bits. That bound lives in cosmos-sdk code outside this model, so the decoded amount is forwarded as it is.
- Handle: logging of the dropped decode failure is not modelled; only its effect (no error, no call) is.
- `EventID` and `NewSendToWasmEventHandler` (x/vmbridge/keeper/evm.go:21-28) only return a constant or wrap the keeper.
- The collaborators listed above are parameters. Their internals are out of scope: EVM execution (`TransitionDb`, `CreateEmptyCommitStateDB`, `GenerateCSDBParams`), ABI packing and unpacking, bech32, `IsETHAddress`, `ParseChainID` and transaction hashing. So the round trip of the log's ABI encoding is not stated.
- Keeper.CallEvm: an account is reduced to its address and sequence. Whatever `NewAccountWithAddress` does inside the account keeper (such as allocating an account number) is not modelled.
- The commented-out inner-transaction block (x/vmbridge/keeper/evm.go:134-137) does nothing and is not modelled.
- Rollback of the enclosing transaction is not in these files. The model only shows that the error paths write nothing.
- The definitions of `HigherThanEarth` and `GetEarthHeight` are not part of this model. They are parameters, and no lemma assumes whether the gate is open at the earth height itself.
- `ModuleName` is defined in x/wasm/types, which is not part of this model. It is taken to be "wasm"; only comparisons with it matter.
- Wasm configuration (`ReadWasmConfig`, `Init`, `WasmDir`, `WasmConfig` and their `sync.Once`) is process-wide configuration read through viper and cast, so it is I/O outside the model.
- Codec, CLI, gRPC and genesis wiring (x/wasm/module_adapter.go:31-75, 85-94) is registration plumbing, a no-op genesis and a call of an `InitGenesis` outside these files. `VersionFilter()` only returns the default version filter.
- ExportGenesis: the exported state and its JSON encoding come from code outside these files and are a parameter.
- Human-readable formatting (`Proposal.String`, `Proposals.String`, `TallyResult.String`, the content `String` methods, `Format`) is not modelled.
- UnmarshalJsonText: JSON quoting by `encoding/json` is not modelled. `MarshalJSON` and `UnmarshalJSON` are modelled at the level of the string inside the quotes.
- `sdk.Dec` amounts are integers and `time.Time` values are opaque. `SysCoins` deposits are a sequence of coins.
- `WrapProposalForCosmosAPI`, `NewTallyResult`, `NewTallyResultFromMap`, `ProposalRoute` and `ValidateBasic` are not modelled. They are field copies, or they depend on definitions (`RouterKey`, `ValidateAbstract`, vote options) outside these files.
- Unmarshal: empty input makes the source panic on `data[0]`. The model requires non-empty input instead of modelling the panic.
- ProposalHandler: a proposal with nil content makes the source panic. In the model content is never nil.
