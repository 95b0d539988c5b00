/** The message-call dispatcher of core/vm/evm.go: `run` and the four call
    primitives `Call`, `CallCode`, `DelegateCall` and `Create`, as pure
    functions from the world state and the watchdog pair to a result that
    carries the new world state and watchdog pair. The interpreter, the
    precompiled contracts, address derivation and hashing are supplied as
    function values (`Oracles`); the host's balance callbacks as a
    `Context`. */
module Evm {
  import opened Types
  import opened StateDb
  import opened WatchDog

  /** The value-transfer callbacks of the execution context, supplied by the
      host. */
  datatype Context = Context(
    canTransfer: (World, Address, nat) -> bool,
    transfer: (World, Address, Address, nat) -> World)

  /** go-ethereum's `core.CanTransfer`. */
  function StandardCanTransfer(w: World, from: Address, v: nat): bool
  {
    GetBalance(w, from) >= v
  }

  /** go-ethereum's `core.Transfer`: debit, then credit. */
  function StandardTransfer(w: World, from: Address, to: Address, v: nat): World
  {
    AddBalance(SubBalance(w, from, v), to, v)
  }

  function StandardContext(): Context { Context(StandardCanTransfer, StandardTransfer) }

  /** A contract frame (`Contract`): who called, whose account and storage
      the code acts on (`address`), the value (`None` for the nil value of a
      delegate frame), the gas budget, and the code with its address and
      hash. */
  datatype Frame = Frame(
    caller: Address,
    address: Address,
    value: Option<nat>,
    gas: U64,
    codeAddr: Option<Address>,
    codeHash: Hash,
    code: Bytes,
    delegate: bool)

  function NewContract(caller: Address, address: Address, value: Option<nat>, gas: U64): Frame
  {
    Frame(caller, address, value, gas, None, ZeroHash, [], false)
  }

  function SetCallCode(f: Frame, addr: Address, hash: Hash, code: Bytes): Frame
  {
    f.(codeAddr := Some(addr), codeHash := hash, code := code)
  }

  function AsDelegate(f: Frame): Frame
  {
    f.(delegate := true)
  }

  /** What a precompiled contract returns: output, gas left, error. */
  datatype PrecompileOutcome = PrecompileOutcome(ret: Bytes, gas: U64, err: Option<VmError>)

  /** What running a frame returns: output, the frame's gas left, error, and
      the world state and watchdog pair after the run. */
  datatype RunOutcome = RunOutcome(ret: Bytes, gas: U64, err: Option<VmError>, world: World, dogs: Dogs)

  /** The collaborators the dispatcher calls but does not define. The
      interpreter receives the snapshot taken for the frame, the current
      world, the watchdog pair (storage writes are recorded through it), the
      frame and the input. */
  datatype Oracles = Oracles(
    isPrecompile: Address -> bool,
    precompile: (Address, Bytes, Frame) -> PrecompileOutcome,
    interpret: (World, World, Dogs, Frame, Bytes) -> RunOutcome,
    createAddress: (Address, U64) -> Address,
    keccak: Bytes -> Hash)

  /** The EVM instance: context, collaborators, current call depth, the
      `NoRecursion` option, and the two fork switches at the current block
      (EIP-158 and Homestead). */
  datatype Vm = Vm(
    ctx: Context,
    oracles: Oracles,
    depth: nat,
    noRecursion: bool,
    eip158: bool,
    homestead: bool)

  /** `run`: a frame whose code address is a precompiled contract runs that
      contract, which touches neither the world nor the watchdogs; any other
      frame is handed to the interpreter. */
  function Run(o: Oracles, snapshot: World, w: World, dogs: Dogs, f: Frame, input: Bytes): (out: RunOutcome)
    ensures f.codeAddr.Some? && o.isPrecompile(f.codeAddr.value) ==>
      && out.world == w && out.dogs == dogs
      && var p := o.precompile(f.codeAddr.value, input, f);
         out.ret == p.ret && out.gas == p.gas && out.err == p.err
    ensures !(f.codeAddr.Some? && o.isPrecompile(f.codeAddr.value)) ==>
      out == o.interpret(snapshot, w, dogs, f, input)
  {
    if f.codeAddr.Some? && o.isPrecompile(f.codeAddr.value) then
      var p := o.precompile(f.codeAddr.value, input, f);
      RunOutcome(p.ret, p.gas, p.err, w, dogs)
    else
      o.interpret(snapshot, w, dogs, f, input)
  }

  /** Result of `Call`, `CallCode` and `DelegateCall`. */
  datatype CallResult = CallResult(ret: Bytes, gas: U64, err: Option<VmError>, world: World, dogs: Dogs)

  /** Result of `Create`: adds the new contract's address. */
  datatype CreateResult = CreateResult(ret: Bytes, addr: Address, gas: U64, err: Option<VmError>, world: World, dogs: Dogs)

  /** Outcome of the entry checks every primitive makes before it takes a
      snapshot: go on, or return at once with the given error. */
  datatype Gate = Proceed | Exit(err: Option<VmError>)

  /** The entry checks, in the order every primitive makes them: the
      recursion gate, the depth limit, then (except for `DelegateCall`,
      which passes `None`) the balance check. */
  function CheckGate(vm: Vm, balanceOk: Option<bool>): (g: Gate)
    ensures g == Proceed <==>
      !(vm.noRecursion && vm.depth > 0) && vm.depth <= CallCreateDepth && balanceOk != Some(false)
    ensures vm.noRecursion && vm.depth > 0 ==> g == Exit(None)
    ensures !(vm.noRecursion && vm.depth > 0) && vm.depth > CallCreateDepth ==> g == Exit(Some(ErrDepth))
    ensures !(vm.noRecursion && vm.depth > 0) && vm.depth <= CallCreateDepth && balanceOk == Some(false) ==>
      g == Exit(Some(ErrInsufficientBalance))
  {
    if vm.noRecursion && vm.depth > 0 then Exit(None)
    else if vm.depth > CallCreateDepth then Exit(Some(ErrDepth))
    else if balanceOk == Some(false) then Exit(Some(ErrInsufficientBalance))
    else Proceed
  }

  /** `Call`, `CallCode` and `Create` get past their entry checks. */
  predicate Admitted(vm: Vm, w: World, caller: Address, value: nat)
  {
    CheckGate(vm, Some(vm.ctx.canTransfer(w, caller, value))) == Proceed
  }

  /** `DelegateCall` gets past its entry checks. */
  predicate DelegateAdmitted(vm: Vm)
  {
    CheckGate(vm, None) == Proceed
  }

  /** Commit or revert after a run: on error the frame's remaining gas is
      all used up and the world returns to the snapshot; the watchdogs are
      not part of the snapshot, and when `flagDogs` is set (as in `Call`)
      each dog that is on records the failure. The output is returned in
      either case. */
  function Settle(out: RunOutcome, snapshot: World, flagDogs: bool): (r: CallResult)
    ensures r.ret == out.ret && r.err == out.err
    ensures out.err.Some? ==> r.gas == 0 && r.world == snapshot
    ensures out.err.Some? ==> r.dogs == if flagDogs then ThrowOnArmed(out.dogs) else out.dogs
    ensures out.err.None? ==> r.gas == out.gas && r.world == out.world && r.dogs == out.dogs
  {
    if out.err.Some? then
      var spent := UseGas(out.gas, out.gas);
      var dogs := if flagDogs then ThrowOnArmed(out.dogs) else out.dogs;
      CallResult(out.ret, spent.gas, out.err, snapshot, dogs)
    else
      CallResult(out.ret, out.gas, out.err, out.world, out.dogs)
  }

  /** Under EIP-158, a zero-value `Call` to an account that does not exist
      and is not a precompiled contract does nothing. */
  predicate SkipsEmptyTarget(vm: Vm, w: World, addr: Address, value: nat)
  {
    !Exist(w, addr) && !vm.oracles.isPrecompile(addr) && vm.eip158 && value == 0
  }

  /** The state `Call` runs its frame in: the target account, created first
      if it is missing, then the value transfer. */
  function CallSetup(transfer: (World, Address, Address, nat) -> World, w: World, caller: Address, addr: Address, value: nat): World
  {
    transfer(if Exist(w, addr) then w else CreateAccount(w, addr), caller, addr, value)
  }

  /** The run stage of `Call`, from the snapshot `w`. */
  function CallRun(vm: Vm, w: World, dogs: Dogs, caller: Address, addr: Address, input: Bytes, gas: U64, value: nat): RunOutcome
  {
    var ready := CallSetup(vm.ctx.transfer, w, caller, addr, value);
    var f := SetCallCode(NewContract(caller, addr, Some(value), gas), addr,
                         GetCodeHash(ready, addr, vm.oracles.keccak), GetCode(ready, addr));
    Run(vm.oracles, w, ready, dogs, f, input)
  }

  /** `Call`: run the code at `addr` on `addr`'s own account, after moving
      `value` to it. */
  function Call(vm: Vm, w: World, dogs: Dogs, caller: Address, addr: Address, input: Bytes, gas: U64, value: nat): (r: CallResult)
    ensures vm.noRecursion && vm.depth > 0 ==> r == CallResult([], gas, None, w, dogs)
    ensures !(vm.noRecursion && vm.depth > 0) && vm.depth > CallCreateDepth ==>
      r == CallResult([], gas, Some(ErrDepth), w, dogs)
    ensures !(vm.noRecursion && vm.depth > 0) && vm.depth <= CallCreateDepth && !vm.ctx.canTransfer(w, caller, value) ==>
      r == CallResult([], gas, Some(ErrInsufficientBalance), w, dogs)
    ensures Admitted(vm, w, caller, value) && SkipsEmptyTarget(vm, w, addr, value) ==>
      r == CallResult([], gas, None, w, dogs)
    ensures r.err.Some? ==> r.world == w
    ensures Admitted(vm, w, caller, value) && !SkipsEmptyTarget(vm, w, addr, value) ==>
      var out := CallRun(vm, w, dogs, caller, addr, input, gas, value);
      && r.ret == out.ret && r.err == out.err
      && (out.err.Some? ==> r.gas == 0 && r.dogs == ThrowOnArmed(out.dogs))
      && (out.err.None? ==> r.gas == out.gas && r.world == out.world && r.dogs == out.dogs)
  {
    match CheckGate(vm, Some(vm.ctx.canTransfer(w, caller, value)))
    case Exit(e) => CallResult([], gas, e, w, dogs)
    case Proceed =>
      if SkipsEmptyTarget(vm, w, addr, value) then CallResult([], gas, None, w, dogs)
      else Settle(CallRun(vm, w, dogs, caller, addr, input, gas, value), w, true)
  }

  /** The frame `CallCode` runs: the code at `addr`, acting on the caller's
      own account. */
  function CallCodeFrame(vm: Vm, w: World, caller: Address, addr: Address, gas: U64, value: nat): Frame
  {
    SetCallCode(NewContract(caller, caller, Some(value), gas), addr,
                GetCodeHash(w, addr, vm.oracles.keccak), GetCode(w, addr))
  }

  /** `CallCode`: run the code at `addr` on the caller's account. The
      balance is checked but no value is moved and no account is created. */
  function CallCode(vm: Vm, w: World, dogs: Dogs, caller: Address, addr: Address, input: Bytes, gas: U64, value: nat): (r: CallResult)
    ensures vm.noRecursion && vm.depth > 0 ==> r == CallResult([], gas, None, w, dogs)
    ensures !(vm.noRecursion && vm.depth > 0) && vm.depth > CallCreateDepth ==>
      r == CallResult([], gas, Some(ErrDepth), w, dogs)
    ensures !(vm.noRecursion && vm.depth > 0) && vm.depth <= CallCreateDepth && !vm.ctx.canTransfer(w, caller, value) ==>
      r == CallResult([], gas, Some(ErrInsufficientBalance), w, dogs)
    ensures r.err.Some? ==> r.world == w
    ensures Admitted(vm, w, caller, value) ==>
      var out := Run(vm.oracles, w, w, dogs, CallCodeFrame(vm, w, caller, addr, gas, value), input);
      && r.ret == out.ret && r.err == out.err && r.dogs == out.dogs
      && (out.err.Some? ==> r.gas == 0)
      && (out.err.None? ==> r.gas == out.gas && r.world == out.world)
  {
    match CheckGate(vm, Some(vm.ctx.canTransfer(w, caller, value)))
    case Exit(e) => CallResult([], gas, e, w, dogs)
    case Proceed =>
      Settle(Run(vm.oracles, w, w, dogs, CallCodeFrame(vm, w, caller, addr, gas, value), input), w, false)
  }

  /** The frame `DelegateCall` runs: the code at `addr`, acting on the
      caller's account, with a nil value, marked as a delegate frame. */
  function DelegateFrame(vm: Vm, w: World, caller: Address, addr: Address, gas: U64): Frame
  {
    SetCallCode(AsDelegate(NewContract(caller, caller, None, gas)), addr,
                GetCodeHash(w, addr, vm.oracles.keccak), GetCode(w, addr))
  }

  /** `DelegateCall`: like `CallCode`, but with no balance check at all. */
  function DelegateCall(vm: Vm, w: World, dogs: Dogs, caller: Address, addr: Address, input: Bytes, gas: U64): (r: CallResult)
    ensures vm.noRecursion && vm.depth > 0 ==> r == CallResult([], gas, None, w, dogs)
    ensures !(vm.noRecursion && vm.depth > 0) && vm.depth > CallCreateDepth ==>
      r == CallResult([], gas, Some(ErrDepth), w, dogs)
    ensures r.err.Some? ==> r.world == w
    ensures DelegateAdmitted(vm) ==>
      var out := Run(vm.oracles, w, w, dogs, DelegateFrame(vm, w, caller, addr, gas), input);
      && r.ret == out.ret && r.err == out.err && r.dogs == out.dogs
      && (out.err.Some? ==> r.gas == 0)
      && (out.err.None? ==> r.gas == out.gas && r.world == out.world)
  {
    match CheckGate(vm, None)
    case Exit(e) => CallResult([], gas, e, w, dogs)
    case Proceed =>
      Settle(Run(vm.oracles, w, w, dogs, DelegateFrame(vm, w, caller, addr, gas), input), w, false)
  }

  /** The caller's nonce bump that `Create` makes before its snapshot, with
      `uint64` wrap-around. */
  function BumpNonce(w: World, caller: Address): (r: World)
    ensures GetNonce(r, caller) == AddU64(GetNonce(w, caller), 1)
    ensures Exist(r, caller) && AccountOf(r, caller) == AccountOf(w, caller).(nonce := AddU64(GetNonce(w, caller), 1))
    ensures forall a :: a != caller ==> AccountOf(r, a) == AccountOf(w, a) && (Exist(r, a) <==> Exist(w, a))
  {
    SetNonce(w, caller, AddU64(GetNonce(w, caller), 1))
  }

  /** The new contract account: fresh (keeping any balance already at the
      address), with nonce 1 under EIP-158. */
  function CreateTarget(w: World, addr: Address, eip158: bool): (r: World)
    ensures Exist(r, addr)
    ensures AccountOf(r, addr) == Account(GetBalance(w, addr), if eip158 then 1 else 0, [], map[])
    ensures forall a :: a != addr ==> AccountOf(r, a) == AccountOf(w, a) && (Exist(r, a) <==> Exist(w, a))
  {
    var created := CreateAccount(w, addr);
    if eip158 then SetNonce(created, addr, 1) else created
  }

  /** The run stage of `Create`, from the snapshot `snapshot` (taken after
      the nonce bump): set up the new account, move the value, and run the
      init code with no input. */
  function CreateRun(vm: Vm, snapshot: World, dogs: Dogs, caller: Address, addr: Address, code: Bytes, gas: U64, value: nat): RunOutcome
  {
    var ready := vm.ctx.transfer(CreateTarget(snapshot, addr, vm.eip158), caller, addr, value);
    var f := SetCallCode(NewContract(caller, addr, Some(value), gas), addr, vm.oracles.keccak(code), code);
    Run(vm.oracles, snapshot, ready, dogs, f, [])
  }

  /** Gas for depositing `size` bytes of code, as the `uint64` product the
      source computes; within the code size limit it never wraps. */
  function DepositCost(size: nat): (c: U64)
    requires size <= MaxCodeSize
    ensures c == size * CreateDataGas
  {
    MulU64(size, CreateDataGas)
  }

  /** State after the code-deposit step of `Create`. */
  datatype Deposit = Deposit(gas: U64, err: Option<VmError>, world: World, oversize: bool)

  /** The code-deposit step: a clean run whose output fits the size limit
      pays for and stores its output as the new account's code, or fails
      with `ErrCodeStoreOutOfGas` without spending anything. */
  function DepositCode(addr: Address, out: RunOutcome): (d: Deposit)
    ensures d.oversize <==> |out.ret| > MaxCodeSize
    ensures out.err.Some? || d.oversize ==> d == Deposit(out.gas, out.err, out.world, d.oversize)
    ensures out.err.None? && !d.oversize ==>
      if |out.ret| * CreateDataGas <= out.gas
      then d == Deposit(out.gas - |out.ret| * CreateDataGas, None, SetCode(out.world, addr, out.ret), false)
      else d == Deposit(out.gas, Some(ErrCodeStoreOutOfGas), out.world, false)
  {
    var oversize := |out.ret| > MaxCodeSize;
    if out.err.None? && !oversize then
      var use := UseGas(out.gas, DepositCost(|out.ret|));
      if use.ok then Deposit(use.gas, None, SetCode(out.world, addr, out.ret), false)
      else Deposit(out.gas, Some(ErrCodeStoreOutOfGas), out.world, false)
    else
      Deposit(out.gas, out.err, out.world, oversize)
  }

  /** When `Create` reverts: output over the size limit, or any error except
      that before Homestead a code-deposit failure is kept. */
  predicate CreateReverts(homestead: bool, d: Deposit)
  {
    d.oversize || (d.err.Some? && (homestead || d.err != Some(ErrCodeStoreOutOfGas)))
  }

  /** The end of `Create`, as written: deposit, then revert (forfeiting all
      gas) or commit, and drop the output when there is an error. */
  function CreateFinish(homestead: bool, snapshot: World, addr: Address, out: RunOutcome): (r: CreateResult)
    ensures r.addr == addr && r.dogs == out.dogs
    ensures r.err.Some? ==> r.ret == []
    // A clean run whose output fits and is paid for: the code is deployed.
    ensures out.err.None? && |out.ret| <= MaxCodeSize && |out.ret| * CreateDataGas <= out.gas ==>
      r == CreateResult(out.ret, addr, out.gas - |out.ret| * CreateDataGas, None, SetCode(out.world, addr, out.ret), out.dogs)
    // A clean run whose output fits but cannot be paid for.
    ensures out.err.None? && |out.ret| <= MaxCodeSize && |out.ret| * CreateDataGas > out.gas ==>
      && r.err == Some(ErrCodeStoreOutOfGas) && r.ret == []
      && (homestead ==> r.gas == 0 && r.world == snapshot)
      && (!homestead ==> r.gas == out.gas && r.world == out.world)
    // A clean run whose output is too large: reverted, yet no error.
    ensures out.err.None? && |out.ret| > MaxCodeSize ==>
      r == CreateResult(out.ret, addr, 0, None, snapshot, out.dogs)
    // A failed run: reverted, except a code-deposit error before Homestead.
    ensures out.err.Some? ==>
      && r.err == out.err && r.ret == []
      && (homestead || out.err != Some(ErrCodeStoreOutOfGas) || |out.ret| > MaxCodeSize ==>
            r.gas == 0 && r.world == snapshot)
      && (!homestead && out.err == Some(ErrCodeStoreOutOfGas) && |out.ret| <= MaxCodeSize ==>
            r.gas == out.gas && r.world == out.world)
  {
    var d := DepositCode(addr, out);
    var reverted := CreateReverts(homestead, d);
    var gas := if reverted then UseGas(d.gas, d.gas).gas else d.gas;
    var world := if reverted then snapshot else d.world;
    var ret := if d.err.Some? then [] else out.ret;
    CreateResult(ret, addr, gas, d.err, world, out.dogs)
  }

  /** `Create`: bump the caller's nonce, snapshot, derive the new address
      from the caller and its nonce before the bump, run the init code and
      deposit its output. */
  function Create(vm: Vm, w: World, dogs: Dogs, caller: Address, code: Bytes, gas: U64, value: nat): (r: CreateResult)
    ensures vm.noRecursion && vm.depth > 0 ==> r == CreateResult([], ZeroAddress, gas, None, w, dogs)
    ensures !(vm.noRecursion && vm.depth > 0) && vm.depth > CallCreateDepth ==>
      r == CreateResult([], ZeroAddress, gas, Some(ErrDepth), w, dogs)
    ensures !(vm.noRecursion && vm.depth > 0) && vm.depth <= CallCreateDepth && !vm.ctx.canTransfer(w, caller, value) ==>
      r == CreateResult([], ZeroAddress, gas, Some(ErrInsufficientBalance), w, dogs)
    ensures Admitted(vm, w, caller, value) ==>
      && r.addr == vm.oracles.createAddress(caller, GetNonce(w, caller))
      && r == CreateFinish(vm.homestead, BumpNonce(w, caller), r.addr,
                           CreateRun(vm, BumpNonce(w, caller), dogs, caller, r.addr, code, gas, value))
    ensures r.err.Some? ==> r.ret == []
  {
    match CheckGate(vm, Some(vm.ctx.canTransfer(w, caller, value)))
    case Exit(e) => CreateResult([], ZeroAddress, gas, e, w, dogs)
    case Proceed =>
      var nonce := GetNonce(w, caller);
      var snapshot := BumpNonce(w, caller);
      var addr := vm.oracles.createAddress(caller, nonce);
      CreateFinish(vm.homestead, snapshot, addr, CreateRun(vm, snapshot, dogs, caller, addr, code, gas, value))
  }

  /** Corrected end of `Create`: as `CreateFinish`, but output over the size
      limit is reported as `ErrMaxCodeSizeExceeded`, so that an error-free
      result always means the code was deployed. */
  function CreateFinishChecked(homestead: bool, snapshot: World, addr: Address, out: RunOutcome): (r: CreateResult)
    ensures r.addr == addr && r.dogs == out.dogs
    ensures r.err.Some? ==> r.ret == []
    ensures r.err.None? ==>
      && |out.ret| <= MaxCodeSize && out.err.None?
      && r.world == SetCode(out.world, addr, out.ret)
      && r.ret == out.ret && r.gas + |out.ret| * CreateDataGas == out.gas
    ensures |out.ret| > MaxCodeSize ==>
      r.gas == 0 && r.world == snapshot &&
      r.err == if out.err.Some? then out.err else Some(ErrMaxCodeSizeExceeded)
  {
    var written := CreateFinish(homestead, snapshot, addr, out);
    if |out.ret| > MaxCodeSize && written.err.None? then
      written.(err := Some(ErrMaxCodeSizeExceeded), ret := [])
    else
      written
  }

  /** Corrected `Create`, using `CreateFinishChecked`. */
  function CreateChecked(vm: Vm, w: World, dogs: Dogs, caller: Address, code: Bytes, gas: U64, value: nat): (r: CreateResult)
    ensures !Admitted(vm, w, caller, value) ==> r == Create(vm, w, dogs, caller, code, gas, value)
    ensures Admitted(vm, w, caller, value) && r.err.None? ==>
      GetCode(r.world, r.addr) == r.ret
  {
    match CheckGate(vm, Some(vm.ctx.canTransfer(w, caller, value)))
    case Exit(e) => CreateResult([], ZeroAddress, gas, e, w, dogs)
    case Proceed =>
      var nonce := GetNonce(w, caller);
      var snapshot := BumpNonce(w, caller);
      var addr := vm.oracles.createAddress(caller, nonce);
      CreateFinishChecked(vm.homestead, snapshot, addr, CreateRun(vm, snapshot, dogs, caller, addr, code, gas, value))
  }
}
