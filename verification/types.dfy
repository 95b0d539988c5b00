/** Basic vocabulary shared by the dispatcher and the watchdog: bytes,
    addresses, hashes, 64-bit quantities, the protocol constants the
    dispatcher consults, and the error values it returns. */
module Types {

  /** Go's `nil`-or-value, and the absence of an `error`. */
  datatype Option<+T> = None | Some(value: T)

  function Lookup<K, V>(m: map<K, V>, k: K): Option<V>
  {
    if k in m then Some(m[k]) else None
  }

  /** The first present value of the two. */
  function OrElse<T>(a: Option<T>, b: Option<T>): Option<T>
  {
    if a.Some? then a else b
  }

  newtype uint8 = x: int | 0 <= x < 256

  type Bytes = seq<uint8>

  /** 20-byte account address (`common.Address`). */
  type Address = a: Bytes | |a| == 20 witness [0, 0, 0, 0, 0, 0, 0, 0, 0, 0, 0, 0, 0, 0, 0, 0, 0, 0, 0, 0]

  /** 32-byte word (`common.Hash`): storage locations, values, tx hashes. */
  type Hash = h: Bytes | |h| == 32 witness [0, 0, 0, 0, 0, 0, 0, 0, 0, 0, 0, 0, 0, 0, 0, 0, 0, 0, 0, 0, 0, 0, 0, 0, 0, 0, 0, 0, 0, 0, 0, 0]

  const ZeroAddress: Address := [0, 0, 0, 0, 0, 0, 0, 0, 0, 0, 0, 0, 0, 0, 0, 0, 0, 0, 0, 0]
  const ZeroHash: Hash := [0, 0, 0, 0, 0, 0, 0, 0, 0, 0, 0, 0, 0, 0, 0, 0, 0, 0, 0, 0, 0, 0, 0, 0, 0, 0, 0, 0, 0, 0, 0, 0]

  const TWO_64: int := 0x1_0000_0000_0000_0000

  /** Go's `uint64`: gas amounts and account nonces. */
  type U64 = x: int | 0 <= x < TWO_64

  /** Unsigned 64-bit addition with Go's wrap-around. */
  function AddU64(a: U64, b: U64): (r: U64)
    ensures a + b < TWO_64 ==> r == a + b
    ensures a + b >= TWO_64 ==> r == a + b - TWO_64
  {
    (a + b) % TWO_64
  }

  /** Unsigned 64-bit multiplication with Go's wrap-around. */
  function MulU64(a: U64, b: U64): (r: U64)
    ensures a * b < TWO_64 ==> r == a * b
    ensures a * b >= TWO_64 ==> r < a * b && (a * b - r) % TWO_64 == 0
  {
    (a * b) % TWO_64
  }

  // Protocol constants: go-ethereum's `params` values.

  /** Maximum depth of nested calls and creations. */
  const CallCreateDepth: nat := 1024

  /** Maximum size of deployed contract code, from EIP-170. */
  const MaxCodeSize: nat := 24576

  /** Gas charged per byte of deployed contract code. */
  const CreateDataGas: U64 := 200

  /** The errors a call primitive can return. The interpreter's own
      failures (out of gas, invalid opcode, ...) are opaque to the
      dispatcher and are carried as `ErrExecution`. `ErrMaxCodeSizeExceeded`
      is only produced by the corrected creation rule `Evm.CreateChecked`. */
  datatype VmError =
    | ErrDepth
    | ErrInsufficientBalance
    | ErrCodeStoreOutOfGas
    | ErrMaxCodeSizeExceeded
    | ErrExecution(reason: string)

  /** Outcome of `Contract.UseGas`: whether the charge was accepted, and the
      gas left afterwards. */
  datatype GasUse = GasUse(ok: bool, gas: U64)

  /** `Contract.UseGas` as go-ethereum defines it: the charge succeeds
      exactly when enough gas is left, and a refused charge consumes nothing. */
  function UseGas(gas: U64, amount: U64): (r: GasUse)
    ensures r.ok <==> amount <= gas
    ensures r.gas <= gas
    ensures r.ok ==> r.gas + amount == gas
    ensures !r.ok ==> r.gas == gas
  {
    if gas < amount then GasUse(false, gas) else GasUse(true, gas - amount)
  }
}
