/** The trace watchdog of core/vm/evm.go. Two dogs exist (the general one
    and the tracer one); they share the set of transaction hashes already
    armed, so the pair and that set form one record, `Dogs`. */
module WatchDog {
  import opened Types
  import opened StateDb

  /** What the dog needs of a transaction: its hash and its recipient
      (`None` for a contract-creation transaction). */
  datatype Tx = Tx(hash: Hash, to: Option<Address>)

  /** What the report needs of a receipt. */
  datatype Receipt = Receipt(txHash: Hash)

  datatype Dog = Dog(
    trace: seq<string>,
    storageNew: map<Hash, Hash>,
    storageOld: map<Hash, Hash>,
    balanceOld: int,
    balanceNew: int,
    tx: Option<Tx>,
    turnOn: bool,
    hasThrow: bool)

  datatype Which = General | Tracer

  datatype Dogs = Dogs(general: Dog, tracer: Dog, handled: set<Hash>)

  /** A transaction the dog may watch: present, and not a creation. */
  predicate Watchable(tx: Option<Tx>)
  {
    tx.Some? && tx.value.to.Some?
  }

  /** A dog that is on knows the recipient whose balance it reports. */
  predicate Consistent(d: Dog)
  {
    d.turnOn ==> Watchable(d.tx)
  }

  predicate AllConsistent(ds: Dogs)
  {
    Consistent(ds.general) && Consistent(ds.tracer)
  }

  /** `newWatchDog`: off, nothing recorded. Go leaves the buffers nil until
      `Start`; here they start empty. */
  function NewWatchDog(): (d: Dog)
    ensures !d.turnOn && !d.hasThrow && d.tx.None?
    ensures d.balanceOld == 0 && d.balanceNew == 0
    ensures d.trace == [] && d.storageOld == map[] && d.storageNew == map[]
  {
    Dog([], map[], map[], 0, 0, None, false, false)
  }

  /** The process-wide pair before any transaction was armed. */
  function InitialDogs(): (ds: Dogs)
    ensures AllConsistent(ds) && ds.handled == {}
    ensures forall o :: Get(ds, o) == NewWatchDog()
  {
    Dogs(NewWatchDog(), NewWatchDog(), {})
  }

  function Get(ds: Dogs, which: Which): Dog
  {
    match which
    case General => ds.general
    case Tracer => ds.tracer
  }

  function Set(ds: Dogs, which: Which, d: Dog): (r: Dogs)
    ensures Get(r, which) == d
    ensures forall o :: o != which ==> Get(r, o) == Get(ds, o)
    ensures r.handled == ds.handled
  {
    match which
    case General => ds.(general := d)
    case Tracer => ds.(tracer := d)
  }

  /** `Watch`: arm the chosen dog for `tx`, recording the recipient's balance
      in `w`, unless `tx` is a creation or its hash was armed before by
      either dog. Arming does not clear the buffers; `Start` does that. */
  function Watch(ds: Dogs, which: Which, w: World, tx: Option<Tx>): (r: Dogs)
    ensures !Watchable(tx) || tx.value.hash in ds.handled ==> r == ds
    ensures Watchable(tx) && tx.value.hash !in ds.handled ==>
      && r.handled == ds.handled + {tx.value.hash}
      && Get(r, which) == Get(ds, which).(tx := tx, turnOn := true,
                                          balanceOld := GetBalance(w, tx.value.to.value))
      && forall o :: o != which ==> Get(r, o) == Get(ds, o)
    ensures AllConsistent(ds) ==> AllConsistent(r)
  {
    if Watchable(tx) && tx.value.hash !in ds.handled then
      var d := Get(ds, which);
      var armed := d.(tx := tx, turnOn := true, balanceOld := GetBalance(w, tx.value.to.value));
      Set(ds.(handled := ds.handled + {tx.value.hash}), which, armed)
    else
      ds
  }

  /** `ThrowError`: flag a failure, but only while the dog is on. */
  function ThrowError(d: Dog): (r: Dog)
    ensures r.hasThrow <==> d.hasThrow || d.turnOn
    ensures r.(hasThrow := d.hasThrow) == d
  {
    if d.turnOn then d.(hasThrow := true) else d
  }

  /** What a failing `Call` does to the pair: each dog that is on gets its
      throw flag set. */
  function ThrowOnArmed(ds: Dogs): (r: Dogs)
    ensures forall o :: Get(r, o) == ThrowError(Get(ds, o))
    ensures r.handled == ds.handled
    ensures AllConsistent(ds) ==> AllConsistent(r)
  {
    Dogs(if ds.general.turnOn then ThrowError(ds.general) else ds.general,
         if ds.tracer.turnOn then ThrowError(ds.tracer) else ds.tracer,
         ds.handled)
  }

  /** `Start`: empty buffers, clear the throw flag, and switch the dog off. */
  function Start(d: Dog): (r: Dog)
    ensures !r.turnOn && !r.hasThrow && Consistent(r)
    ensures r.trace == [] && r.storageOld == map[] && r.storageNew == map[]
    ensures r.tx == d.tx && r.balanceOld == d.balanceOld && r.balanceNew == d.balanceNew
  {
    d.(hasThrow := false, turnOn := false, trace := [], storageOld := map[], storageNew := map[])
  }

  /** `Write2Trace`: the trace grows by `note` when the dog is on, and
      nothing changes when it is off. */
  function Write2Trace(d: Dog, note: string): (r: Dog)
    ensures r.trace == if d.turnOn then d.trace + [note] else d.trace
    ensures r.(trace := d.trace) == d
  {
    if d.turnOn then d.(trace := d.trace + [note]) else d
  }

  /** `Write2Storage`: while the dog is on, the first value seen for a
      location becomes its fixed "before" value; a later value that differs
      from it becomes the "after" value, and a later equal value changes
      nothing. */
  function Write2Storage(d: Dog, location: Hash, value: Hash): (r: Dog)
    ensures r.(storageOld := d.storageOld, storageNew := d.storageNew) == d
    ensures !d.turnOn ==> r == d
    ensures forall k :: k in d.storageOld ==> k in r.storageOld && r.storageOld[k] == d.storageOld[k]
    ensures r.storageOld.Keys == d.storageOld.Keys + (if d.turnOn then {location} else {})
    ensures d.turnOn && location !in d.storageOld ==> r.storageOld[location] == value
    ensures r.storageNew ==
      if d.turnOn && location in d.storageOld && d.storageOld[location] != value
      then d.storageNew[location := value]
      else d.storageNew
  {
    if d.turnOn then
      if location !in d.storageOld then
        d.(storageOld := d.storageOld[location := value])
      else if d.storageOld[location] != value then
        d.(storageNew := d.storageNew[location := value])
      else
        d
    else
      d
  }

  /** The document `End`/`EndTracer` post to the fuzzing service. */
  datatype Report = Report(
    trace: seq<string>,
    hash: Hash,
    storageNew: map<Hash, Hash>,
    storageOld: map<Hash, Hash>,
    balanceNew: int,
    balanceOld: int,
    tracer: Option<string>,
    hasThrow: bool)

  /** The dog after finalising, and the report posted, if any. */
  datatype EndResult = EndResult(dog: Dog, posted: Option<Report>)

  function ReportOf(d: Dog, receipt: Receipt, tracer: Option<string>): Report
  {
    Report(d.trace, receipt.txHash, d.storageNew, d.storageOld,
           d.balanceNew, d.balanceOld, tracer, d.hasThrow)
  }

  /** The shared body of `End` and `EndTracer`, as written. `w` is the state
      of the EVM the dog was armed with; `encodes` is whether JSON encoding
      of the report succeeds. When encoding fails the source returns before
      switching the dog off. Delivery failures are swallowed and change
      nothing, so the model posts whenever encoding succeeds. */
  function Finalize(d: Dog, w: World, receipt: Receipt, tracer: Option<string>, encodes: bool): (r: EndResult)
    requires Consistent(d)
    ensures r.posted.Some? <==> d.turnOn && |d.trace| != 0 && encodes
    ensures r.dog.turnOn <==> d.turnOn && |d.trace| != 0 && !encodes
    ensures d.turnOn ==> r.dog.balanceNew == GetBalance(w, d.tx.value.to.value)
    ensures r.dog.(turnOn := d.turnOn, balanceNew := d.balanceNew) == d
    ensures !d.turnOn ==> r.dog == d
    ensures r.posted.Some? ==> r.posted.value == ReportOf(r.dog, receipt, tracer)
    ensures Consistent(r.dog)
  {
    if d.turnOn then
      var d1 := d.(balanceNew := GetBalance(w, d.tx.value.to.value));
      if |d1.trace| != 0 then
        if !encodes then EndResult(d1, None)
        else EndResult(d1.(turnOn := false), Some(ReportOf(d1, receipt, tracer)))
      else
        EndResult(d1.(turnOn := false), None)
    else
      EndResult(d.(turnOn := false), None)
  }

  /** `End`: finalise without a tracer result. */
  function End(d: Dog, w: World, receipt: Receipt, encodes: bool): (r: EndResult)
    requires Consistent(d)
    ensures r.dog.turnOn <==> d.turnOn && |d.trace| != 0 && !encodes
    ensures r.posted.Some? <==> d.turnOn && |d.trace| != 0 && encodes
    ensures d.turnOn ==> r.dog.balanceNew == GetBalance(w, d.tx.value.to.value)
    ensures !d.turnOn ==> r.dog == d
    ensures r.dog.(turnOn := d.turnOn, balanceNew := d.balanceNew) == d
    ensures r.posted.Some? ==> r.posted.value.tracer.None? && r.posted.value.trace == d.trace
    ensures r.posted.Some? ==> r.posted.value == ReportOf(r.dog, receipt, None)
  {
    Finalize(d, w, receipt, None, encodes)
  }

  /** `EndTracer`: finalise, attaching the tracer's result to the report. */
  function EndTracer(d: Dog, w: World, receipt: Receipt, tracerResult: string, encodes: bool): (r: EndResult)
    requires Consistent(d)
    ensures r.dog.turnOn <==> d.turnOn && |d.trace| != 0 && !encodes
    ensures r.posted.Some? <==> d.turnOn && |d.trace| != 0 && encodes
    ensures d.turnOn ==> r.dog.balanceNew == GetBalance(w, d.tx.value.to.value)
    ensures !d.turnOn ==> r.dog == d
    ensures r.dog.(turnOn := d.turnOn, balanceNew := d.balanceNew) == d
    ensures r.posted.Some? ==> r.posted.value.tracer == Some(tracerResult) && r.posted.value.trace == d.trace
    ensures r.posted.Some? ==> r.posted.value == ReportOf(r.dog, receipt, Some(tracerResult))
  {
    Finalize(d, w, receipt, Some(tracerResult), encodes)
  }

  /** Corrected finalisation: as `Finalize`, but the dog is switched off on
      every path, encoding failure included. */
  function FinalizeIdle(d: Dog, w: World, receipt: Receipt, tracer: Option<string>, encodes: bool): (r: EndResult)
    requires Consistent(d)
    ensures !r.dog.turnOn && Consistent(r.dog)
    ensures r.posted.Some? <==> d.turnOn && |d.trace| != 0 && encodes
    ensures r.posted.Some? ==> r.posted.value == ReportOf(r.dog, receipt, tracer)
    ensures r.posted == Finalize(d, w, receipt, tracer, encodes).posted
    ensures d.turnOn ==> r.dog.balanceNew == GetBalance(w, d.tx.value.to.value)
    ensures r.dog.(turnOn := d.turnOn, balanceNew := d.balanceNew) == d
    ensures !d.turnOn ==> r.dog == d
  {
    var e := Finalize(d, w, receipt, tracer, encodes);
    e.(dog := e.dog.(turnOn := false))
  }
}
