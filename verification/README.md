# Message-call dispatcher and trace watchdog of core/vm/evm.go, in Dafny

This project models the core of `core/vm/evm.go`, a go-ethereum fork's EVM
front end, and proves properties of the model.

- **The dispatcher.** It covers the four call primitives (`Call`, `CallCode`,
  `DelegateCall`, `Create`) and `run`. Each primitive makes its entry checks
  in a fixed order: the `NoRecursion` gate, the call-depth limit, then,
  except in `DelegateCall`, the balance check. It takes a snapshot, sets up the frame and runs it, on a
  precompiled contract or on the interpreter. Then it commits, or it reverts
  to the snapshot and uses up all remaining gas. `Create` also deposits the
  code. Two fork switches are modelled: the EIP-158 empty-account rule and
  the Homestead code-deposit rule. The EIP-170 code size limit applies
  without a fork switch.
- **The watchdog.** There are two dogs, the general one and the tracer one.
  They share the set of transaction hashes already armed. Each dog has an
  on/off flag, a throw flag, an append-only trace, and a before/after map
  keyed by storage location.

Everything is a pure function over immutable records:

- `StateDb.World` is the world state: accounts with balance, nonce, code and
  storage. A snapshot is a saved `World`, and a revert returns it.
- `WatchDog.Dogs` is the pair of dogs plus the shared set of armed hashes.
  The dogs are not part of the snapshot, so a revert does not undo what they
  recorded.
- Each primitive takes a `Vm` (context, collaborators, depth, options, fork
  switches), the world and the dogs. It returns the output, the gas left,
  the error, the new world and the new dogs.
- The interpreter, the precompiled contracts, address derivation and Keccak
  hashing are function-valued fields of `Evm.Oracles`. The interpreter
  receives the dogs, so storage writes it reports reach them.
- `CanTransfer`/`Transfer` are function-valued fields of `Evm.Context`. The
  standard go-ethereum versions are `Evm.StandardCanTransfer` and
  `Evm.StandardTransfer`.

Widths follow the source:

- Gas and nonces are `U64`. The caller's nonce bump wraps at 2^64, and the
  code-deposit cost is the wrapping `uint64` product. Its contract shows the
  product cannot wrap within the size limit.
- Balances are unbounded integers and values are unbounded naturals.
- Constants are go-ethereum's params values: `CallCreateDepth` = 1024,
  `MaxCodeSize` = 24576, `CreateDataGas` = 200.
- `UseGas` is go-ethereum's `Contract.UseGas`: if enough gas is left, deduct
  it and succeed; otherwise fail and change nothing. contract.go is not part
  of this model.

Points where the code's behaviour is easy to misread, which the model follows as written:

- `Call` returns the run's output even when the run failed. Only `Create`
  drops it.
- `Watch` does not clear the buffers or the throw flag; `Start` does.
- `Write2Storage`'s after-map is not a net diff. Writing a location back to
  its first value leaves the intermediate value in the after-map
  (`WatchDogProperties.WriteBackKeepsIntermediateValue`).
- `Create` with oversized output, and `End`/`EndTracer` when encoding fails,
  behave as described under "## Findings".

## Model

| member | source | states |
|---|---|---|
| `Evm.Run` | core/vm/evm.go:57-67 | a frame whose code address is a precompile runs that precompile, and world and watchdogs stay as they were; any other frame goes to the interpreter with the snapshot |
| `Evm.CheckGate` | core/vm/evm.go:165-177 | entry checks in order: NoRecursion with depth > 0 gives a nil-error exit; depth strictly above CallCreateDepth gives ErrDepth; a failed balance check gives ErrInsufficientBalance; otherwise proceed |
| `Evm.Settle` | core/vm/evm.go:228-238 | on a run error, gas left is 0 and the world is the snapshot, and (for Call) each dog that is on gets its throw flag; on success, output, gas, world and dogs are those of the run; the output is returned either way |
| `Evm.Call` | core/vm/evm.go:148-266 | each early exit returns (nil, input gas, error) with world and dogs untouched; under EIP-158 a zero-value call to a missing non-precompile account returns (nil, gas, nil) and creates nothing; any error leaves the world equal to the input world; past the checks the result is the run committed or reverted, with gas 0 and flagged dogs on error |
| `Evm.CallCode` | core/vm/evm.go:273-362 | same early exits, including the balance check; any error leaves the world unchanged; past the checks, the result is the run of the target's code on the caller's account, in the unchanged state, committed or reverted |
| `Evm.DelegateCall` | core/vm/evm.go:369-453 | only the recursion and depth exits, no balance check; any error leaves the world unchanged; past the checks, the result is the run of the delegate frame, committed or reverted |
| `Evm.BumpNonce` | core/vm/evm.go:471-472 | the caller's account exists afterwards and differs from before only in its nonce, which grows by one with uint64 wrap-around; every other account is unchanged and exists exactly when it did |
| `Evm.CreateTarget` | core/vm/evm.go:476-479 | the new account exists, has empty code and storage, keeps any balance already at the address, and has nonce 1 under EIP-158 (else 0); other accounts are untouched |
| `Evm.DepositCost` | core/vm/evm.go:496 | the uint64 product len(ret)*CreateDataGas equals the exact product for every output within MaxCodeSize |
| `Evm.DepositCode` | core/vm/evm.go:489-502 | a clean run whose output fits stores it as code and deducts exactly len*CreateDataGas when affordable; otherwise ErrCodeStoreOutOfGas with gas and state unchanged; an erroneous or oversized run passes through |
| `Evm.CreateFinish` | core/vm/evm.go:488-519 | every outcome of the deposit and revert rule: paid deposit commits the code; an unpaid deposit is reverted with gas 0 under Homestead but kept with its gas before it; oversized output is reverted with gas 0 yet no error; a run error reverts except a code-store error before Homestead; ret is empty whenever err is set |
| `Evm.Create` | core/vm/evm.go:456-520 | the three early exits return the zero address and the input gas, world untouched; past them the address is derived from the caller and its nonce before the bump, and the result is the deposit/revert rule applied to the run from the bumped snapshot; ret is empty whenever err is set |
| `Evm.CreateFinishChecked` | core/vm/evm.go:489-519 | corrected rule: an error-free result means the output fitted, the run was clean, the code is stored and exactly its deposit cost was paid; oversized output reverts, forfeits gas and reports an error |
| `Evm.CreateChecked` | core/vm/evm.go:456-520 | corrected Create: the same early exits as Create, and an error-free admitted creation has the returned bytes as the new account's code |
| `EvmProperties.CallSetupMovesValue` | core/vm/evm.go:183-189 | with the standard transfer, the state Call runs in has the target account (created empty if missing); the value has moved from caller to target; all other accounts are unchanged |
| `EvmProperties.CallFailureFlagsArmedDogs` | core/vm/evm.go:228-238 | a failing Call returns gas 0 and the pre-call world, and each dog's throw flag ends set exactly when it was set or the dog was on |
| `EvmProperties.CallFrameShape` | core/vm/evm.go:179-223 | Call runs a frame with caller, self = target, code address = target, the target's code after setup, the value and the gas, not delegate |
| `EvmProperties.CallCodeFrameShape` | core/vm/evm.go:294-303 | CallCode runs a frame with self = caller, code address = target, the target's code, the value, not delegate, in the unchanged state |
| `EvmProperties.DelegateCallFrameShape` | core/vm/evm.go:387-395 | DelegateCall runs a frame with self = caller, code address = target, the target's code, a nil value, marked delegate, in the unchanged state |
| `EvmProperties.DelegateCallIgnoresTransferCallbacks` | core/vm/evm.go:377-395 | replacing both value-transfer callbacks does not change DelegateCall's result |
| `EvmProperties.CallCodeIgnoresTransferAction` | core/vm/evm.go:290-303 | replacing the transfer action does not change CallCode's result: it checks the balance but never transfers |
| `EvmProperties.CallCodeMovesNoValue` | core/vm/evm.go:294-336 | with an interpreter that leaves the state alone, CallCode's resulting world is its input world: no account created, no value moved |
| `EvmProperties.DelegateCallMovesNoValue` | core/vm/evm.go:387-426 | with an interpreter that leaves the state alone, DelegateCall's resulting world is its input world |
| `EvmProperties.CallMovesValue` | core/vm/evm.go:179-238 | with the standard callbacks and such an interpreter, a successful Call ends in the set-up state: target present, value credited |
| `EvmProperties.CreateAddressDeterministic` | core/vm/evm.go:471-475 | two admitted creations by the same caller with the same nonce get the same address, whatever the code, gas, value or rest of the state |
| `EvmProperties.CreateFrameShape` | core/vm/evm.go:470-488 | the init code runs on the derived address with its own code and hash, the value and the gas, empty input, in the state with the fresh account and the value transferred |
| `EvmProperties.CreateCommitOrRevert` | core/vm/evm.go:471-511 | Create's error is the deposit step's; when the revert rule fires the world is the bumped snapshot, gas is 0 and the nonce bump survives; otherwise the deposit's world and gas are kept |
| `EvmProperties.PreHomesteadDepositFailureKeepsAccount` | core/vm/evm.go:495-511 | before Homestead an unaffordable deposit reports ErrCodeStoreOutOfGas with empty output, keeps the run's gas, and leaves the created account with empty code |
| `EvmProperties.CreateOversizeReportsSuccess` | core/vm/evm.go:489-519 | as written, a clean run with oversized output yields no error, the oversized output and gas 0, and no account at the new address |
| `EvmProperties.CreateCheckedRejectsOversize` | core/vm/evm.go:489-519 | the corrected rule differs from Create only by reporting ErrMaxCodeSizeExceeded with empty output for oversized clean runs |
| `WatchDog.NewWatchDog` | core/vm/evm.go:545-547 | a new dog is off, not thrown, watches nothing, has zero balances and has empty buffers |
| `WatchDog.InitialDogs` | core/vm/evm.go:528-559 | both dogs start as new dogs (off, not thrown, no tx, empty buffers) and the shared hash set starts empty |
| `WatchDog.Watch` | core/vm/evm.go:560-571 | a present, non-creation tx with an unseen hash arms the chosen dog: hash added to the shared set, dog on, tx recorded, recipient balance captured, other dog untouched; any other tx changes nothing; consistency is preserved |
| `WatchDog.ThrowError` | core/vm/evm.go:575-579 | the throw flag ends set exactly when it was set or the dog is on; nothing else changes |
| `WatchDog.ThrowOnArmed` | core/vm/evm.go:228-234 | each dog becomes ThrowError of itself and the shared set is unchanged |
| `WatchDog.Start` | core/vm/evm.go:586-592 | the dog ends off, not thrown, with empty trace and maps; tx and balances are kept |
| `WatchDog.Write2Trace` | core/vm/evm.go:593-597 | the trace grows by exactly the note when the dog is on; otherwise nothing changes |
| `WatchDog.Write2Storage` | core/vm/evm.go:601-611 | an off dog is unchanged; existing before-entries never change; the before-map gains the location, with the written value, only when on and absent; the after-map changes only when on and the value differs from the before-entry, and then to that value |
| `WatchDog.Finalize` | core/vm/evm.go:613-648 | posts exactly when on, the trace is non-empty and encoding succeeds, with the dog's contents; the dog stays on exactly when on, non-empty and encoding fails; when on, the recipient's current balance is captured and nothing else but the on flag changes; an off dog is left exactly as it was |
| `WatchDog.End` | core/vm/evm.go:613-648 | the dog stays on exactly when it was on with a non-empty trace and encoding fails, so an off dog stays off and is left as it was; when on, the recipient's current balance is captured and nothing else but the on flag changes; posts exactly when on, non-empty and encodable, a report of the dog's trace, maps, balances and throw flag with the receipt's hash and no tracer output |
| `WatchDog.EndTracer` | core/vm/evm.go:649-685 | as End (same on/off rule, balance capture, nothing else changed, untouched off dog), with the tracer result attached to the report |
| `WatchDog.FinalizeIdle` | core/vm/evm.go:613-648 | corrected finalisation: the dog is off on every path; it posts exactly what the as-written finalisation posts; when on, the recipient's current balance is captured; an off dog is left as it was |
| `WatchDogProperties.ApplyAll` | core/vm/evm.go:593-611 | trace, storage and throw events never switch a dog on or off and never change its tx or balances |
| `WatchDogProperties.OffDogIgnoresEvents` | core/vm/evm.go:593-611 | a dog that is off is left exactly as it was by any sequence of trace, storage and throw events |
| `WatchDogProperties.TraceAppendOnly` | core/vm/evm.go:593-597 | a dog that is on ends with its previous trace followed by exactly the notes sent, in order |
| `WatchDogProperties.ThrowFlagRecordsFailures` | core/vm/evm.go:575-579 | for a dog that is on, the throw flag ends set exactly when it was set or some failure was reported |
| `WatchDogProperties.StorageOldWriteOnce` | core/vm/evm.go:601-611 | a recorded before-value survives every later event unchanged |
| `WatchDogProperties.StorageDiffMatchesReference` | core/vm/evm.go:601-611 | for every location, the before-entry is the existing one or else the first value written, and the after-entry is the last written value differing from it, or else the existing one |
| `WatchDogProperties.RepeatedWriteRecordsNoChange` | core/vm/evm.go:604-608 | two equal writes to a fresh location give before = {L: v} and after = {} |
| `WatchDogProperties.WriteBackKeepsIntermediateValue` | core/vm/evm.go:604-608 | writes v0, v1, v0 give before = {L: v0} and after = {L: v1} |
| `WatchDogProperties.WatchArmsOncePerTx` | core/vm/evm.go:560-571 | a second Watch of the same tx, by either dog and against any state, changes nothing |
| `WatchDogProperties.SessionLifecycle` | core/vm/evm.go:560-647 | after Start, Watch of an unseen tx, events and corrected finalisation, the dog is off; it posts exactly when a note was traced and encoding succeeds; the report holds exactly those notes, the armed and final balances, and whether a failure was reported |
| `WatchDogProperties.EndTracerStaysOnWhenEncodingFails` | core/vm/evm.go:649-685 | as written, a failed encoding leaves an armed dog with a non-empty trace on and unreported, and it keeps recording later notes |

## Findings

| source | as written | input that shows it | evidently intended | confidence | as-written member | corrected member |
|---|---|---|---|---|---|---|
| core/vm/evm.go:489-519 | init code that runs cleanly but returns more than MaxCodeSize bytes is reverted and forfeits all gas, yet `err` stays nil and the oversized output is returned | `Create` whose init code returns 24577 bytes without error, to a fresh address | EIP-170: such a creation fails with an error and no output, so nothing reports success for a contract that was not deployed | medium; not executed | `EvmProperties.CreateOversizeReportsSuccess` | `Evm.CreateChecked` |
| core/vm/evm.go:649-684 | when `json.Marshal` fails, the `return` skips `dog.turnOn = false`, so the dog stays on | `EndTracer` on an armed dog with a non-empty trace and a tracer result holding `math.NaN()` (unsupported by encoding/json) | the dog returns to idle after finalising whatever happens to the report, as line 684 intends | medium; not executed | `WatchDogProperties.EndTracerStaysOnWhenEncodingFails` | `WatchDog.FinalizeIdle` |

## Left out

- The `recover()` panic barriers and all `log`/`fmt` output (core/vm/evm.go:149-163, 197, 274-279, 370-375): runtime fault handling and printing with no state semantics.
- The hacker hooks in `CallCode` and `DelegateCall` (core/vm/evm.go:305-330, 337-360, 397-421, 427-450) are modelled as succeeding. They depend on global state outside this file. Their early `return`s before the run would give (nil, 0, nil) with nothing reverted. Their `return` after the run would give the run's output and error with gas 0. The hooks in `Call` are commented out.
- The interpreter loop, the precompiled contracts, `RunPrecompiledContract`, `crypto.CreateAddress` and `Keccak256Hash` are function values. `IsEIP158`/`IsHomestead` are booleans on `Vm`. The depth increment the interpreter makes around nested calls is not modelled: the depth is an input.
- `EvmProperties.DelegateCallFrameShape` / `Evm.DelegateFrame`: the frame's caller is the address passed to `DelegateCall` and its value is nil. `Contract.AsDelegate` also replaces them with the parent frame's caller and value, so the running code sees "the caller of the caller". That is not modelled, because contract.go is not part of this model. The delegate frame records only the delegate mark and the nil value given to `NewContract`.
- The context's `GetHash`, origin, gas price and block fields are read only by the interpreter, except `BlockNumber`, which the fork predicates read (core/vm/evm.go:184, 477, 508). The model gives the predicates' results as the booleans `Vm.eip158`/`Vm.homestead`.
- JSON encoding and the HTTP POST in `End`/`EndTracer` (core/vm/evm.go:617-645, 654-682) are I/O. Encoding success is a boolean input, and a successful encoding counts as posting the report, since a failed delivery is swallowed. The receipt is reduced to its tx hash and the tracer result to a string.
- `Cancel`'s atomic flag (core/vm/evm.go:141-143) and the mutex in `Write2Storage` (core/vm/evm.go:599-609): concurrency. The model is sequential.
- Negative `*big.Int` values are not modelled (values are `nat`).
- StateDB internals: journalling, refunds, touched-account deletion under EIP-158. `CreateAccount` keeps the old balance; the setters create a missing account.
- `Write2Storage` on a dog never passed to `Start` writes to a nil Go map and panics. Model dogs always have maps.
- `NewEVM`, `ChainConfig`, `Interpreter`, `GetGlobalWatchDog`, `GetGlobalTracerWatchDog`, `TurnOn`, `GetEnv`, `GetTx`: constructors and getters. The model reads the fields directly, and the lazily created globals are `WatchDog.InitialDogs`. The EVM captured by `Watch` is the world passed to `End`/`EndTracer`.
