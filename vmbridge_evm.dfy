/**
 * The EVM side of the cross-VM bridge: the handler that turns a `SendToWasm`
 * log into a call of the wasm side, and the keeper operations that let the
 * wasm side mint on an EVM contract through a synthetic call sent from the
 * bridge's module account.
 *
 * Everything the keeper consults but does not define (the account store's
 * lookup, the chain configuration, the state transition, the ABI codec,
 * address checks and the activation-height gate) is a parameter.
 */
module VmbridgeEvm {
  import opened Base

  /** A 20-byte EVM address. */
  type Address = s: seq<Byte> | |s| == 20 witness seq(20, i => 0)

  /** Errors of the bridge; `External` carries an error produced outside the model, unchanged. */
  datatype BridgeError =
    | ErrUnknownRequest(height: int)
    | ErrVMBridgeEnable
    | ErrIsNotETHAddr
    | ErrChainConfigNotFound
    | External(msg: string)

  /**
   * Fits `b` into `n` bytes the way go-ethereum's `BytesToAddress` and
   * `BytesToHash` do: the rightmost `n` bytes are kept, a shorter input is
   * padded with zeros on the left.
   */
  function FitBytes(b: seq<Byte>, n: nat): (r: seq<Byte>)
    ensures |r| == n
    ensures |b| >= n ==> r == b[|b| - n..]
    ensures |b| <= n ==> r[n - |b|..] == b && forall i :: 0 <= i < n - |b| ==> r[i] == 0
  {
    if |b| >= n then b[|b| - n..] else seq(n - |b|, i => 0) + b
  }

  /** go-ethereum's `BytesToAddress`: the rightmost 20 bytes, left-padded with zeros. */
  function BytesToAddress(b: seq<Byte>): (a: Address)
    ensures |b| >= 20 ==> a == b[|b| - 20..]
    ensures |b| <= 20 ==> a[20 - |b|..] == b && forall i :: 0 <= i < 20 - |b| ==> a[i] == 0
  {
    FitBytes(b, 20)
  }

  /** go-ethereum's `BytesToHash`: the rightmost 32 bytes, left-padded with zeros. */
  function BytesToHash(b: seq<Byte>): (h: seq<Byte>)
    ensures |h| == 32
    ensures |b| >= 32 ==> h == b[|b| - 32..]
    ensures |b| <= 32 ==> h[32 - |b|..] == b && forall i :: 0 <= i < 32 - |b| ==> h[i] == 0
  {
    FitBytes(b, 32)
  }

  // ---------------------------------------------------------------------------
  // SendToWasm log handler
  // ---------------------------------------------------------------------------

  /** The fields of a `SendToWasm` log in declared order; the amount arrives through a uint256 slot. */
  datatype SendToWasmEvent = SendToWasmEvent(wasmAddr: string, recipient: string, amount: nat)

  /** A call of the keeper's `SendToWasm`: caller bytes, wasm contract, recipient and amount. */
  datatype SendToWasmCall = SendToWasmCall(caller: seq<Byte>, wasmAddr: string, recipient: string, amount: int)

  /**
   * What the handler consults: the activation-height gate, the bridge's
   * enable parameter, the ABI decoder of the log data (None when decoding
   * fails) and the wasm-side `SendToWasm`, given by the error it returns.
   */
  datatype HandlerEnv = HandlerEnv(
    higherThanEarth: int -> bool,
    vmbridgeEnable: bool,
    unpack: seq<Byte> -> Option<SendToWasmEvent>,
    sendToWasm: SendToWasmCall -> Option<BridgeError>)

  /** The steps of `Handle`, in the order it takes them. */
  datatype Step = CheckHeight | CheckEnable | Unpack | Forward

  const HandleSteps: seq<Step> := [CheckHeight, CheckEnable, Unpack, Forward]

  /** The error `Handle` returns, the steps it took and the `SendToWasm` call it made, if any. */
  datatype HandleResult = HandleResult(err: Option<BridgeError>, steps: seq<Step>, forwarded: Option<SendToWasmCall>)

  /**
   * Handles one `SendToWasm` log emitted by `contract`: each gate that fails
   * returns before the next step, a log that does not decode is dropped
   * without error, and a decoded log is forwarded to `SendToWasm`, whose
   * error is returned as it is.
   */
  function Handle(env: HandlerEnv, blockHeight: int, contract: Address, data: seq<Byte>): (r: HandleResult)
    ensures 1 <= |r.steps| && r.steps <= HandleSteps
    ensures |r.steps| >= 2 <==> env.higherThanEarth(blockHeight)
    ensures |r.steps| >= 3 <==> env.higherThanEarth(blockHeight) && env.vmbridgeEnable
    ensures |r.steps| == 4 <==> env.higherThanEarth(blockHeight) && env.vmbridgeEnable && env.unpack(data).Some?
    ensures r.forwarded.Some? <==> |r.steps| == 4
    ensures |r.steps| == 1 ==> r.err == Some(ErrUnknownRequest(blockHeight))
    ensures |r.steps| == 2 ==> r.err == Some(ErrVMBridgeEnable)
    ensures |r.steps| == 3 ==> r.err == None
    ensures r.forwarded.Some? ==>
      var ev := env.unpack(data).value;
      r.forwarded.value == SendToWasmCall(contract, ev.wasmAddr, ev.recipient, ev.amount) &&
      r.err == env.sendToWasm(r.forwarded.value)
  {
    if !env.higherThanEarth(blockHeight) then
      HandleResult(Some(ErrUnknownRequest(blockHeight)), [CheckHeight], None)
    else if !env.vmbridgeEnable then
      HandleResult(Some(ErrVMBridgeEnable), [CheckHeight, CheckEnable], None)
    else
      match env.unpack(data)
      case None =>
        // the decode failure is logged and ignored
        HandleResult(None, [CheckHeight, CheckEnable, Unpack], None)
      case Some(ev) =>
        var call := SendToWasmCall(contract, ev.wasmAddr, ev.recipient, ev.amount);
        HandleResult(env.sendToWasm(call), HandleSteps, Some(call))
  }

  // ---------------------------------------------------------------------------
  // CallEvm
  // ---------------------------------------------------------------------------

  /** The account keeper's record of an account, reduced to what `CallEvm` reads and writes. */
  datatype Account = Account(address: Address, sequence: Uint64)

  /** The chain configuration, passed through to the state transition untouched. */
  datatype ChainConfig = ChainConfig(raw: seq<Byte>)

  /** The parts of the block-processing context `CallEvm` reads. */
  datatype Context = Context(blockHeight: int, chainId: string, txBytes: seq<Byte>, gasLimit: Uint64, isCheckTx: bool)

  /** The message `CallEvm` builds for the state-transition engine. */
  datatype StateTransition = StateTransition(
    accountNonce: Uint64,
    price: int,
    gasLimit: Uint64,
    recipient: Option<Address>,
    amount: int,
    payload: seq<Byte>,
    chainId: int,
    txHash: seq<Byte>,
    sender: Address,
    simulate: bool,
    traceTx: bool,
    traceTxLog: bool)

  datatype ExecutionResult = ExecutionResult(gasUsed: Uint64, logs: seq<seq<Byte>>)

  datatype ResultData = ResultData(ret: seq<Byte>, contractAddress: Option<Address>)

  /**
   * What the state transition returns: its results and the writes its working
   * state holds until they are committed (code and storage in `writes`, the
   * accounts it touched in `accountWrites`), or its error.
   */
  datatype TransitionResult =
    | TransitionOk(exec: ExecutionResult, data: ResultData, writes: map<seq<Byte>, seq<Byte>>,
                   accountWrites: map<Address, Account>)
    | TransitionFailed(err: BridgeError)

  /**
   * What `CallEvm` consults: the EVM keeper's chain configuration (None when
   * it is not found), the chain-ID parser, the transaction hash of the
   * enclosing transaction at a height, the gas limit of an infinite gas meter,
   * the EVM's maximum gas per transaction, and the state transition.
   */
  datatype EvmEnv = EvmEnv(
    chainConfig: Option<ChainConfig>,
    parseChainId: string -> Result<int, BridgeError>,
    txHash: (seq<Byte>, int) -> seq<Byte>,
    infiniteGasLimit: Uint64,
    maxGasLimitPerTx: Uint64,
    transitionDb: (StateTransition, ChainConfig) -> TransitionResult)

  /** The state `CallEvm` can write: the account store and the committed EVM state. */
  datatype EvmState = EvmState(accounts: map<Address, Account>, store: map<seq<Byte>, seq<Byte>>)

  datatype CallResult = CallOk(exec: ExecutionResult, data: ResultData) | CallErr(err: BridgeError)

  /** The result of one `CallEvm`, the transition it ran (if it got that far) and the state after it. */
  datatype CallOutcome = CallOutcome(result: CallResult, transition: Option<StateTransition>, state: EvmState)

  /** The sequence of the account at `addr`; an account that does not exist yet is created with 0. */
  function SequenceOf(accounts: map<Address, Account>, addr: Address): (seqNo: Uint64)
    ensures addr in accounts ==> seqNo == accounts[addr].sequence
    ensures addr !in accounts ==> seqNo == 0
  {
    if addr in accounts then accounts[addr].sequence else 0
  }

  /** `nonce + 1` in `uint64` arithmetic. */
  function NextSequence(nonce: Uint64): (next: Uint64)
    ensures nonce < MaxUint64 ==> next == nonce + 1
    ensures nonce == MaxUint64 ==> next == 0
  {
    (nonce + 1) % (MaxUint64 + 1)
  }

  /** The gas limit of the synthetic call: the EVM's maximum when the context's meter is unbounded. */
  function GasLimitFor(env: EvmEnv, ctx: Context): (gas: Uint64)
    ensures ctx.gasLimit == env.infiniteGasLimit ==> gas == env.maxGasLimitPerTx
    ensures ctx.gasLimit != env.infiniteGasLimit ==> gas == ctx.gasLimit
  {
    if ctx.gasLimit == env.infiniteGasLimit then env.maxGasLimitPerTx else ctx.gasLimit
  }

  /**
   * The specification of `Keeper.CallEvm`: a synthetic call from the module
   * account `moduleAddr` to `to`, run against state `s`.
   */
  function CallEvmSpec(s: EvmState, moduleAddr: Address, env: EvmEnv, ctx: Context,
                       to: Option<Address>, value: int, data: seq<Byte>): (out: CallOutcome)
    ensures env.chainConfig.None? ==> out == CallOutcome(CallErr(ErrChainConfigNotFound), None, s)
    ensures env.chainConfig.Some? && env.parseChainId(ctx.chainId).Err? ==>
      out == CallOutcome(CallErr(env.parseChainId(ctx.chainId).error), None, s)
    ensures out.transition.Some? <==> env.chainConfig.Some? && env.parseChainId(ctx.chainId).Ok?
    ensures out.transition.Some? ==>
      var st := out.transition.value;
      st.sender == moduleAddr && st.accountNonce == SequenceOf(s.accounts, moduleAddr) && st.price == 0 &&
      st.gasLimit == GasLimitFor(env, ctx) &&
      st.recipient == to && st.amount == value && st.payload == data &&
      st.chainId == env.parseChainId(ctx.chainId).value && st.simulate == ctx.isCheckTx
    ensures out.transition.Some? ==>
      match env.transitionDb(out.transition.value, env.chainConfig.value)
      case TransitionFailed(e) => out.result == CallErr(e)
      case TransitionOk(exec, rd, _, _) => out.result == CallOk(exec, rd)
    ensures out.result.CallErr? ==> out.state == s
    ensures out.result.CallOk? ==>
      out.transition.Some? &&
      var t := env.transitionDb(out.transition.value, env.chainConfig.value);
      t.TransitionOk? && out.state.store == s.store + t.writes
    ensures out.result.CallOk? ==>
      moduleAddr in out.state.accounts &&
      out.state.accounts[moduleAddr].sequence == NextSequence(SequenceOf(s.accounts, moduleAddr)) &&
      (moduleAddr in s.accounts ==>
         out.state.accounts[moduleAddr] == s.accounts[moduleAddr].(sequence := out.state.accounts[moduleAddr].sequence)) &&
      (moduleAddr !in s.accounts ==> out.state.accounts[moduleAddr].address == moduleAddr)
    // the transition's account writes are committed, but the module account is
    // then overwritten with the copy read before the transition
    ensures out.result.CallOk? ==>
      var t := env.transitionDb(out.transition.value, env.chainConfig.value);
      out.state.accounts - {moduleAddr} == (s.accounts + t.accountWrites) - {moduleAddr}
  {
    match env.chainConfig
    case None => CallOutcome(CallErr(ErrChainConfigNotFound), None, s)
    case Some(config) =>
      match env.parseChainId(ctx.chainId)
      case Err(e) => CallOutcome(CallErr(e), None, s)
      case Ok(chainIdEpoch) =>
        var acc := if moduleAddr in s.accounts then s.accounts[moduleAddr] else Account(moduleAddr, 0);
        var st := StateTransition(acc.sequence, 0, GasLimitFor(env, ctx), to, value, data, chainIdEpoch,
                                  BytesToHash(env.txHash(ctx.txBytes, ctx.blockHeight)), moduleAddr,
                                  ctx.isCheckTx, false, false);
        match env.transitionDb(st, config)
        case TransitionFailed(e) => CallOutcome(CallErr(e), Some(st), s)
        case TransitionOk(exec, rd, writes, accountWrites) =>
          var acc' := acc.(sequence := NextSequence(acc.sequence));
          CallOutcome(CallOk(exec, rd), Some(st), EvmState((s.accounts + accountWrites)[moduleAddr := acc'], s.store + writes))
  }

  /** One bridge-originated EVM call: its collaborators, context, target, value and payload. */
  datatype CallArgs = CallArgs(env: EvmEnv, ctx: Context, to: Option<Address>, value: int, data: seq<Byte>)

  /** The state after `calls` run one after another from `s`, and how many of them succeeded. */
  function RunCalls(s: EvmState, moduleAddr: Address, calls: seq<CallArgs>): (r: (EvmState, nat))
    decreases |calls|
  {
    if calls == [] then (s, 0)
    else
      var c := calls[0];
      var out := CallEvmSpec(s, moduleAddr, c.env, c.ctx, c.to, c.value, c.data);
      var rest := RunCalls(out.state, moduleAddr, calls[1..]);
      (rest.0, rest.1 + (if out.result.CallOk? then 1 else 0))
  }

  /**
   * Over any run of calls, the module account's sequence grows by exactly the
   * number of calls that succeeded (as long as it does not wrap around).
   */
  lemma {:induction false} SequenceCountsSuccesses(s: EvmState, moduleAddr: Address, calls: seq<CallArgs>)
    requires SequenceOf(s.accounts, moduleAddr) + |calls| <= MaxUint64
    ensures RunCalls(s, moduleAddr, calls).1 <= |calls|
    ensures SequenceOf(RunCalls(s, moduleAddr, calls).0.accounts, moduleAddr) ==
            SequenceOf(s.accounts, moduleAddr) + RunCalls(s, moduleAddr, calls).1
    decreases |calls|
  {
    if calls != [] {
      var c := calls[0];
      var out := CallEvmSpec(s, moduleAddr, c.env, c.ctx, c.to, c.value, c.data);
      SequenceCountsSuccesses(out.state, moduleAddr, calls[1..]);
    }
  }

  // ---------------------------------------------------------------------------
  // SendToEvm
  // ---------------------------------------------------------------------------

  /**
   * What `SendToEvm` consults besides `CallEvm`: the EVM address check, the
   * bech32 decoder, and the ABI encoder of the mint call and decoder of its
   * result.
   */
  datatype SendToEvmEnv = SendToEvmEnv(
    isEthAddress: string -> bool,
    accAddressFromBech32: string -> Result<seq<Byte>, BridgeError>,
    mintInput: (string, Address, int) -> Result<seq<Byte>, BridgeError>,
    mintOutput: seq<Byte> -> (bool, Option<BridgeError>))

  /** The arguments `SendToEvm` passes to `CallEvm`. */
  datatype EvmCall = EvmCall(to: Address, value: int, data: seq<Byte>)

  /** The result of `SendToEvm`, the `CallEvm` call it made (if any) and the state after it. */
  datatype SendToEvmOutcome = SendToEvmOutcome(success: bool, err: Option<BridgeError>, call: Option<EvmCall>, state: EvmState)

  /** The preconditions of the mint call all hold, in the order `SendToEvm` checks them. */
  predicate MintCallReady(codec: SendToEvmEnv, caller: string, contract: string, recipient: string, amount: int) {
    codec.isEthAddress(recipient) && codec.isEthAddress(contract) &&
    codec.accAddressFromBech32(contract).Ok? && codec.accAddressFromBech32(recipient).Ok? &&
    codec.mintInput(caller, BytesToAddress(codec.accAddressFromBech32(recipient).value), amount).Ok?
  }

  /**
   * The specification of `Keeper.SendToEvm`: validate both addresses, build the
   * mint payload, and call the contract with no native value.
   */
  function SendToEvmSpec(s: EvmState, moduleAddr: Address, env: EvmEnv, codec: SendToEvmEnv, ctx: Context,
                         caller: string, contract: string, recipient: string, amount: int): (out: SendToEvmOutcome)
    ensures !codec.isEthAddress(recipient) ==> out == SendToEvmOutcome(false, Some(ErrIsNotETHAddr), None, s)
    ensures codec.isEthAddress(recipient) && !codec.isEthAddress(contract) ==>
      out == SendToEvmOutcome(false, Some(ErrIsNotETHAddr), None, s)
    ensures codec.isEthAddress(recipient) && codec.isEthAddress(contract) &&
            codec.accAddressFromBech32(contract).Err? ==>
      out == SendToEvmOutcome(false, Some(codec.accAddressFromBech32(contract).error), None, s)
    ensures codec.isEthAddress(recipient) && codec.isEthAddress(contract) &&
            codec.accAddressFromBech32(contract).Ok? && codec.accAddressFromBech32(recipient).Err? ==>
      out == SendToEvmOutcome(false, Some(codec.accAddressFromBech32(recipient).error), None, s)
    ensures codec.isEthAddress(recipient) && codec.isEthAddress(contract) &&
            codec.accAddressFromBech32(contract).Ok? && codec.accAddressFromBech32(recipient).Ok? &&
            codec.mintInput(caller, BytesToAddress(codec.accAddressFromBech32(recipient).value), amount).Err? ==>
      out == SendToEvmOutcome(false,
        Some(codec.mintInput(caller, BytesToAddress(codec.accAddressFromBech32(recipient).value), amount).error), None, s)
    ensures out.call.None? ==> !out.success && out.err.Some? && out.state == s
    ensures out.call.Some? <==> MintCallReady(codec, caller, contract, recipient, amount)
    ensures out.call.Some? ==>
      var input := codec.mintInput(caller, BytesToAddress(codec.accAddressFromBech32(recipient).value), amount);
      out.call.value == EvmCall(BytesToAddress(codec.accAddressFromBech32(contract).value), 0, input.value)
    ensures out.call.Some? ==>
      var c := CallEvmSpec(s, moduleAddr, env, ctx, Some(out.call.value.to), 0, out.call.value.data);
      out.state == c.state &&
      (c.result.CallErr? ==> !out.success && out.err == Some(c.result.err)) &&
      (c.result.CallOk? ==> (out.success, out.err) == codec.mintOutput(c.result.data.ret))
  {
    if !codec.isEthAddress(recipient) then SendToEvmOutcome(false, Some(ErrIsNotETHAddr), None, s)
    else if !codec.isEthAddress(contract) then SendToEvmOutcome(false, Some(ErrIsNotETHAddr), None, s)
    else
      match codec.accAddressFromBech32(contract)
      case Err(e) => SendToEvmOutcome(false, Some(e), None, s)
      case Ok(contractBytes) =>
        match codec.accAddressFromBech32(recipient)
        case Err(e) => SendToEvmOutcome(false, Some(e), None, s)
        case Ok(recipientBytes) =>
          match codec.mintInput(caller, BytesToAddress(recipientBytes), amount)
          case Err(e) => SendToEvmOutcome(false, Some(e), None, s)
          case Ok(input) =>
            var call := EvmCall(BytesToAddress(contractBytes), 0, input);
            var c := CallEvmSpec(s, moduleAddr, env, ctx, Some(call.to), call.value, call.data);
            match c.result
            case CallErr(e) => SendToEvmOutcome(false, Some(e), Some(call), c.state)
            case CallOk(_, rd) =>
              var decoded := codec.mintOutput(rd.ret);
              SendToEvmOutcome(decoded.0, decoded.1, Some(call), c.state)
  }

  /**
   * A `SendToEvm` that reports success advanced the module account's sequence
   * by exactly one; one rejected before `CallEvm` changed nothing.
   */
  lemma SendToEvmSequenceStep(s: EvmState, moduleAddr: Address, env: EvmEnv, codec: SendToEvmEnv, ctx: Context,
                              caller: string, contract: string, recipient: string, amount: int)
    ensures var out := SendToEvmSpec(s, moduleAddr, env, codec, ctx, caller, contract, recipient, amount);
      out.success ==>
        SequenceOf(out.state.accounts, moduleAddr) == NextSequence(SequenceOf(s.accounts, moduleAddr))
    ensures var out := SendToEvmSpec(s, moduleAddr, env, codec, ctx, caller, contract, recipient, amount);
      !MintCallReady(codec, caller, contract, recipient, amount) ==> out.state == s && !out.success
  {
  }

  // ---------------------------------------------------------------------------
  // The keeper
  // ---------------------------------------------------------------------------

  /** The bridge keeper over the account store and the committed EVM state. */
  class Keeper {
    /** The fixed module account every bridge-originated EVM call is sent from. */
    const moduleAddress: Address
    var accounts: map<Address, Account>
    var store: map<seq<Byte>, seq<Byte>>

    constructor (moduleAddress: Address, accounts: map<Address, Account>, store: map<seq<Byte>, seq<Byte>>)
      ensures this.moduleAddress == moduleAddress && this.accounts == accounts && this.store == store
    {
      this.moduleAddress := moduleAddress;
      this.accounts := accounts;
      this.store := store;
    }

    function State(): (st: EvmState)
      reads this
    {
      EvmState(accounts, store)
    }

    /**
     * Runs a synthetic EVM call from the module account. A failed call leaves
     * the state as it was; a successful one commits the transition's writes
     * and then stores the module account, as it was read before the
     * transition, with its sequence advanced by one.
     */
    method CallEvm(env: EvmEnv, ctx: Context, to: Option<Address>, value: int, data: seq<Byte>) returns (res: CallResult)
      modifies this
      ensures var out := CallEvmSpec(old(State()), moduleAddress, env, ctx, to, value, data);
        res == out.result && State() == out.state
    {
      var callerAddr := moduleAddress;
      if env.chainConfig.None? {
        return CallErr(ErrChainConfigNotFound);
      }
      var config := env.chainConfig.value;
      var parsed := env.parseChainId(ctx.chainId);
      if parsed.Err? {
        return CallErr(parsed.error);
      }
      var acc: Account;
      if callerAddr in accounts {
        acc := accounts[callerAddr];
      } else {
        acc := Account(callerAddr, 0);
      }
      var nonce := acc.sequence;
      var ethTxHash := BytesToHash(env.txHash(ctx.txBytes, ctx.blockHeight));
      var gasLimit := ctx.gasLimit;
      if gasLimit == env.infiniteGasLimit {
        gasLimit := env.maxGasLimitPerTx;
      }
      var st := StateTransition(nonce, 0, gasLimit, to, value, data, parsed.value, ethTxHash, callerAddr,
                                ctx.isCheckTx, false, false);
      var transition := env.transitionDb(st, config);
      if transition.TransitionFailed? {
        return CallErr(transition.err);
      }
      accounts := accounts + transition.accountWrites;
      store := store + transition.writes;
      acc := acc.(sequence := NextSequence(nonce));
      accounts := accounts[callerAddr := acc];
      res := CallOk(transition.exec, transition.data);
    }

    /**
     * Mints `amount` for `recipient` on the EVM contract `contract` on behalf of
     * the wasm-side `caller`.
     */
    method SendToEvm(env: EvmEnv, codec: SendToEvmEnv, ctx: Context,
                     caller: string, contract: string, recipient: string, amount: int)
      returns (success: bool, err: Option<BridgeError>)
      modifies this
      ensures var out := SendToEvmSpec(old(State()), moduleAddress, env, codec, ctx, caller, contract, recipient, amount);
        success == out.success && err == out.err && State() == out.state
    {
      if !codec.isEthAddress(recipient) {
        return false, Some(ErrIsNotETHAddr);
      }
      if !codec.isEthAddress(contract) {
        return false, Some(ErrIsNotETHAddr);
      }
      var contractAccAddr := codec.accAddressFromBech32(contract);
      if contractAccAddr.Err? {
        return false, Some(contractAccAddr.error);
      }
      var contractAddr := BytesToAddress(contractAccAddr.value);
      var recipientAccAddr := codec.accAddressFromBech32(recipient);
      if recipientAccAddr.Err? {
        return false, Some(recipientAccAddr.error);
      }
      var recipientAddr := BytesToAddress(recipientAccAddr.value);
      var input := codec.mintInput(caller, recipientAddr, amount);
      if input.Err? {
        return false, Some(input.error);
      }
      var result := CallEvm(env, ctx, Some(contractAddr), 0, input.value);
      if result.CallErr? {
        return false, Some(result.err);
      }
      var decoded := codec.mintOutput(result.data.ret);
      success, err := decoded.0, decoded.1;
    }
  }
}
