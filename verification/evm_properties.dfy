/** Properties of the dispatcher that relate several calls or that need a
    particular context or interpreter to state. */
module EvmProperties {
  import opened Types
  import opened StateDb
  import opened WatchDog
  import opened Evm

  /** An interpreter that, whatever it computes, leaves the world state as it
      found it. Used to see what the dispatcher itself does to the state. */
  ghost predicate Inert(o: Oracles)
  {
    forall s, w, d, f, i :: o.interpret(s, w, d, f, i).world == w
  }

  /** With go-ethereum's transfer, the state `Call` runs in has the target
      account, with the value moved from the caller to it, and nothing else
      changed. */
  lemma CallSetupMovesValue(w: World, caller: Address, addr: Address, value: nat)
    ensures var r := CallSetup(StandardTransfer, w, caller, addr, value);
      && Exist(r, addr) && Exist(r, caller)
      && (caller != addr ==>
            && GetBalance(r, caller) == GetBalance(w, caller) - value
            && GetBalance(r, addr) == GetBalance(w, addr) + value)
      && (caller == addr ==> GetBalance(r, caller) == GetBalance(w, caller))
      && (Exist(w, addr) ==> AccountOf(r, addr).(balance := 0) == AccountOf(w, addr).(balance := 0))
      && (!Exist(w, addr) && caller != addr ==> AccountOf(r, addr) == EmptyAccount.(balance := value))
      && forall a :: a != caller && a != addr ==> AccountOf(r, a) == AccountOf(w, a) && (Exist(r, a) <==> Exist(w, a))
  {
    var created := if Exist(w, addr) then w else CreateAccount(w, addr);
    assert forall a :: a != addr ==> AccountOf(created, a) == AccountOf(w, a) && (Exist(created, a) <==> Exist(w, a));
    var debited := SubBalance(created, caller, value);
    assert AccountOf(created, addr).(balance := 0) == AccountOf(w, addr).(balance := 0);
  }

  /** A failing `Call` sets the throw flag of every dog that was on after
      the run, and of no other; `CallCode` and `DelegateCall` leave the dogs
      as the run left them. */
  lemma CallFailureFlagsArmedDogs(vm: Vm, w: World, dogs: Dogs, caller: Address, addr: Address, input: Bytes, gas: U64, value: nat)
    requires Admitted(vm, w, caller, value) && !SkipsEmptyTarget(vm, w, addr, value)
    requires CallRun(vm, w, dogs, caller, addr, input, gas, value).err.Some?
    ensures var out := CallRun(vm, w, dogs, caller, addr, input, gas, value);
      var r := Call(vm, w, dogs, caller, addr, input, gas, value);
      && r.gas == 0 && r.world == w
      && r.dogs.handled == out.dogs.handled
      && forall o :: Get(r.dogs, o).hasThrow <==> Get(out.dogs, o).hasThrow || Get(out.dogs, o).turnOn
  {
  }

  /** `Call` runs the target's own code on the target's account, after
      setting the account up and moving the value. */
  lemma CallFrameShape(vm: Vm, w: World, dogs: Dogs, caller: Address, addr: Address, input: Bytes, gas: U64, value: nat)
    requires Admitted(vm, w, caller, value) && !SkipsEmptyTarget(vm, w, addr, value)
    ensures var ready := CallSetup(vm.ctx.transfer, w, caller, addr, value);
      exists f: Frame ::
        && f.caller == caller && f.address == addr && f.codeAddr == Some(addr)
        && f.code == GetCode(ready, addr) && f.value == Some(value) && f.gas == gas && !f.delegate
        && Call(vm, w, dogs, caller, addr, input, gas, value) == Settle(Run(vm.oracles, w, ready, dogs, f, input), w, true)
  {
    var ready := CallSetup(vm.ctx.transfer, w, caller, addr, value);
    var f := SetCallCode(NewContract(caller, addr, Some(value), gas), addr,
                         GetCodeHash(ready, addr, vm.oracles.keccak), GetCode(ready, addr));
    assert Call(vm, w, dogs, caller, addr, input, gas, value) == Settle(Run(vm.oracles, w, ready, dogs, f, input), w, true);
  }

  /** `CallCode` runs the target's code on the caller's own account, in the
      unchanged state, without moving value. */
  lemma CallCodeFrameShape(vm: Vm, w: World, dogs: Dogs, caller: Address, addr: Address, input: Bytes, gas: U64, value: nat)
    requires Admitted(vm, w, caller, value)
    ensures exists f: Frame ::
      && f.caller == caller && f.address == caller && f.codeAddr == Some(addr)
      && f.code == GetCode(w, addr) && f.value == Some(value) && f.gas == gas && !f.delegate
      && CallCode(vm, w, dogs, caller, addr, input, gas, value) == Settle(Run(vm.oracles, w, w, dogs, f, input), w, false)
  {
    var f := CallCodeFrame(vm, w, caller, addr, gas, value);
    assert CallCode(vm, w, dogs, caller, addr, input, gas, value) == Settle(Run(vm.oracles, w, w, dogs, f, input), w, false);
  }

  /** `DelegateCall` runs the target's code on the caller's own account, in
      the unchanged state, in a delegate frame with a nil value. */
  lemma DelegateCallFrameShape(vm: Vm, w: World, dogs: Dogs, caller: Address, addr: Address, input: Bytes, gas: U64)
    requires DelegateAdmitted(vm)
    ensures exists f: Frame ::
      && f.caller == caller && f.address == caller && f.codeAddr == Some(addr)
      && f.code == GetCode(w, addr) && f.value.None? && f.gas == gas && f.delegate
      && DelegateCall(vm, w, dogs, caller, addr, input, gas) == Settle(Run(vm.oracles, w, w, dogs, f, input), w, false)
  {
    var f := DelegateFrame(vm, w, caller, addr, gas);
    assert DelegateCall(vm, w, dogs, caller, addr, input, gas) == Settle(Run(vm.oracles, w, w, dogs, f, input), w, false);
  }

  /** `DelegateCall` never consults the value-transfer callbacks: replacing
      them changes nothing. */
  lemma DelegateCallIgnoresTransferCallbacks(vm: Vm, other: Context, w: World, dogs: Dogs, caller: Address, addr: Address, input: Bytes, gas: U64)
    ensures DelegateCall(vm, w, dogs, caller, addr, input, gas) == DelegateCall(vm.(ctx := other), w, dogs, caller, addr, input, gas)
  {
  }

  /** `CallCode` checks the balance but never performs a transfer: replacing
      the transfer action changes nothing. */
  lemma CallCodeIgnoresTransferAction(vm: Vm, transfer: (World, Address, Address, nat) -> World,
                                      w: World, dogs: Dogs, caller: Address, addr: Address, input: Bytes, gas: U64, value: nat)
    ensures CallCode(vm, w, dogs, caller, addr, input, gas, value)
         == CallCode(vm.(ctx := vm.ctx.(transfer := transfer)), w, dogs, caller, addr, input, gas, value)
  {
  }

  /** Apart from what the code itself does, `CallCode` changes nothing in the
      state: no account is created and no value moves. */
  lemma CallCodeMovesNoValue(vm: Vm, w: World, dogs: Dogs, caller: Address, addr: Address, input: Bytes, gas: U64, value: nat)
    requires Inert(vm.oracles)
    ensures CallCode(vm, w, dogs, caller, addr, input, gas, value).world == w
  {
    if Admitted(vm, w, caller, value) {
      var f := CallCodeFrame(vm, w, caller, addr, gas, value);
      assert Run(vm.oracles, w, w, dogs, f, input).world == w;
    }
  }

  /** Apart from what the code itself does, `DelegateCall` changes nothing in
      the state. */
  lemma DelegateCallMovesNoValue(vm: Vm, w: World, dogs: Dogs, caller: Address, addr: Address, input: Bytes, gas: U64)
    requires Inert(vm.oracles)
    ensures DelegateCall(vm, w, dogs, caller, addr, input, gas).world == w
  {
    if DelegateAdmitted(vm) {
      var f := DelegateFrame(vm, w, caller, addr, gas);
      assert Run(vm.oracles, w, w, dogs, f, input).world == w;
    }
  }

  /** By contrast, a successful `Call` with go-ethereum's callbacks leaves the
      target account in place and the value moved. */
  lemma CallMovesValue(vm: Vm, w: World, dogs: Dogs, caller: Address, addr: Address, input: Bytes, gas: U64, value: nat)
    requires Inert(vm.oracles)
    requires var std := vm.(ctx := StandardContext());
      Admitted(std, w, caller, value) && !SkipsEmptyTarget(std, w, addr, value)
    requires Call(vm.(ctx := StandardContext()), w, dogs, caller, addr, input, gas, value).err.None?
    ensures var r := Call(vm.(ctx := StandardContext()), w, dogs, caller, addr, input, gas, value);
      && r.world == CallSetup(StandardTransfer, w, caller, addr, value)
      && Exist(r.world, addr)
      && (caller != addr ==> GetBalance(r.world, addr) == GetBalance(w, addr) + value)
  {
    var std := vm.(ctx := StandardContext());
    var ready := CallSetup(StandardTransfer, w, caller, addr, value);
    var f := SetCallCode(NewContract(caller, addr, Some(value), gas), addr,
                         GetCodeHash(ready, addr, vm.oracles.keccak), GetCode(ready, addr));
    assert Run(vm.oracles, w, ready, dogs, f, input).world == ready;
    CallSetupMovesValue(w, caller, addr, value);
  }

  /** The created address depends only on the caller and its nonce. */
  lemma CreateAddressDeterministic(vm: Vm, w: World, w': World, dogs: Dogs, dogs': Dogs, caller: Address,
                                   code: Bytes, code': Bytes, gas: U64, gas': U64, value: nat, value': nat)
    requires Admitted(vm, w, caller, value) && Admitted(vm, w', caller, value')
    requires GetNonce(w, caller) == GetNonce(w', caller)
    ensures Create(vm, w, dogs, caller, code, gas, value).addr == Create(vm, w', dogs', caller, code', gas', value').addr
  {
  }

  /** The new account `Create` runs its init code in: at the derived
      address, fresh, with nonce 1 under EIP-158, and holding the value. The
      frame runs the init code itself, on the new account, with no input. */
  lemma CreateFrameShape(vm: Vm, w: World, dogs: Dogs, caller: Address, code: Bytes, gas: U64, value: nat)
    requires Admitted(vm, w, caller, value)
    ensures var snapshot := BumpNonce(w, caller);
      var addr := vm.oracles.createAddress(caller, GetNonce(w, caller));
      var ready := vm.ctx.transfer(CreateTarget(snapshot, addr, vm.eip158), caller, addr, value);
      exists f: Frame ::
        && f.caller == caller && f.address == addr && f.codeAddr == Some(addr)
        && f.code == code && f.codeHash == vm.oracles.keccak(code)
        && f.value == Some(value) && f.gas == gas && !f.delegate
        && CreateRun(vm, snapshot, dogs, caller, addr, code, gas, value) == Run(vm.oracles, snapshot, ready, dogs, f, [])
  {
    var snapshot := BumpNonce(w, caller);
    var addr := vm.oracles.createAddress(caller, GetNonce(w, caller));
    var f := SetCallCode(NewContract(caller, addr, Some(value), gas), addr, vm.oracles.keccak(code), code);
    var ready := vm.ctx.transfer(CreateTarget(snapshot, addr, vm.eip158), caller, addr, value);
    assert CreateRun(vm, snapshot, dogs, caller, addr, code, gas, value) == Run(vm.oracles, snapshot, ready, dogs, f, []);
  }

  /** The caller's nonce bump is made before the snapshot, so it survives a
      revert; a reverted creation also forfeits all its gas. A creation that
      does not revert keeps the deposit step's state and gas. */
  lemma CreateCommitOrRevert(vm: Vm, w: World, dogs: Dogs, caller: Address, code: Bytes, gas: U64, value: nat)
    requires Admitted(vm, w, caller, value)
    ensures var r := Create(vm, w, dogs, caller, code, gas, value);
      var snapshot := BumpNonce(w, caller);
      var d := DepositCode(r.addr, CreateRun(vm, snapshot, dogs, caller, r.addr, code, gas, value));
      && r.err == d.err
      && (CreateReverts(vm.homestead, d) ==>
            r.world == snapshot && r.gas == 0 && GetNonce(r.world, caller) == AddU64(GetNonce(w, caller), 1))
      && (!CreateReverts(vm.homestead, d) ==> r.world == d.world && r.gas == d.gas)
  {
  }

  /** Before Homestead, init code whose output cannot be paid for still
      leaves the created (empty-code) account and the unspent gas, while
      reporting `ErrCodeStoreOutOfGas`. */
  lemma PreHomesteadDepositFailureKeepsAccount(vm: Vm, w: World, dogs: Dogs, caller: Address, code: Bytes, gas: U64, value: nat)
    requires Inert(vm.oracles) && !vm.homestead
    requires var std := vm.(ctx := StandardContext());
      && Admitted(std, w, caller, value)
      && var addr := vm.oracles.createAddress(caller, GetNonce(w, caller));
         var out := CreateRun(std, BumpNonce(w, caller), dogs, caller, addr, code, gas, value);
         out.err.None? && |out.ret| <= MaxCodeSize && |out.ret| * CreateDataGas > out.gas
    ensures var std := vm.(ctx := StandardContext());
      var r := Create(std, w, dogs, caller, code, gas, value);
      var out := CreateRun(std, BumpNonce(w, caller), dogs, caller, r.addr, code, gas, value);
      && r.err == Some(ErrCodeStoreOutOfGas) && r.ret == [] && r.gas == out.gas
      && Exist(r.world, r.addr) && GetCode(r.world, r.addr) == []
  {
    var std := vm.(ctx := StandardContext());
    var snapshot := BumpNonce(w, caller);
    var addr := vm.oracles.createAddress(caller, GetNonce(w, caller));
    var target := CreateTarget(snapshot, addr, vm.eip158);
    var ready := StandardTransfer(target, caller, addr, value);
    var f := SetCallCode(NewContract(caller, addr, Some(value), gas), addr, vm.oracles.keccak(code), code);
    assert CreateRun(std, snapshot, dogs, caller, addr, code, gas, value).world == ready by {
      assert Run(vm.oracles, snapshot, ready, dogs, f, []).world == ready;
    }
    assert GetCode(ready, addr) == [];
  }

  /** As written, a creation whose init code runs cleanly but returns more
      than `MaxCodeSize` bytes reports success, with the oversized output,
      although the state was reverted (no contract at the new address) and
      all gas was forfeited. */
  lemma CreateOversizeReportsSuccess(vm: Vm, w: World, dogs: Dogs, caller: Address, code: Bytes, gas: U64, value: nat)
    requires Admitted(vm, w, caller, value)
    requires var addr := vm.oracles.createAddress(caller, GetNonce(w, caller));
      var out := CreateRun(vm, BumpNonce(w, caller), dogs, caller, addr, code, gas, value);
      out.err.None? && |out.ret| > MaxCodeSize && !Exist(w, addr) && addr != caller
    ensures var r := Create(vm, w, dogs, caller, code, gas, value);
      && r.err.None? && |r.ret| > MaxCodeSize && r.gas == 0
      && !Exist(r.world, r.addr)
  {
    var addr := vm.oracles.createAddress(caller, GetNonce(w, caller));
    assert !Exist(BumpNonce(w, caller), addr);
  }

  /** The corrected creation rule reports the oversized output as an error,
      and otherwise agrees with `Create`. */
  lemma CreateCheckedRejectsOversize(vm: Vm, w: World, dogs: Dogs, caller: Address, code: Bytes, gas: U64, value: nat)
    requires Admitted(vm, w, caller, value)
    ensures var r := CreateChecked(vm, w, dogs, caller, code, gas, value);
      var c := Create(vm, w, dogs, caller, code, gas, value);
      var out := CreateRun(vm, BumpNonce(w, caller), dogs, caller, c.addr, code, gas, value);
      && r.addr == c.addr && r.world == c.world && r.gas == c.gas
      && (out.err.None? && |out.ret| > MaxCodeSize ==> r.err == Some(ErrMaxCodeSizeExceeded) && r.ret == [])
      && (!(out.err.None? && |out.ret| > MaxCodeSize) ==> r == c)
  {
  }
}
