/** Properties of the watchdog over whole sequences of the events the
    execution path feeds it, and of its lifecycle. */
module WatchDogProperties {
  import opened Types
  import opened StateDb
  import opened WatchDog

  /** One call into an armed-or-not dog from the execution path. */
  datatype Event =
    | TraceNote(note: string)
    | StorageWrite(location: Hash, value: Hash)
    | Throw

  function Step(d: Dog, e: Event): Dog
  {
    match e
    case TraceNote(note) => Write2Trace(d, note)
    case StorageWrite(location, value) => Write2Storage(d, location, value)
    case Throw => ThrowError(d)
  }

  /** The dog after the events, in order. Events never switch the dog on or
      off and never change what it watches. */
  function ApplyAll(d: Dog, es: seq<Event>): (r: Dog)
    ensures r.turnOn == d.turnOn && r.tx == d.tx
    ensures r.balanceOld == d.balanceOld && r.balanceNew == d.balanceNew
    decreases |es|
  {
    if es == [] then d else ApplyAll(Step(d, es[0]), es[1..])
  }

  /** The trace notes among the events, in order. */
  function Notes(es: seq<Event>): seq<string>
    decreases |es|
  {
    if es == [] then []
    else (if es[0].TraceNote? then [es[0].note] else []) + Notes(es[1..])
  }

  function AnyThrow(es: seq<Event>): bool
    decreases |es|
  {
    es != [] && (es[0].Throw? || AnyThrow(es[1..]))
  }

  /** The value of the first write to `location`. */
  function FirstWritten(es: seq<Event>, location: Hash): Option<Hash>
    decreases |es|
  {
    if es == [] then None
    else if es[0].StorageWrite? && es[0].location == location then Some(es[0].value)
    else FirstWritten(es[1..], location)
  }

  /** The value of the last write to `location` that differs from `base`. */
  function LastDiffering(es: seq<Event>, location: Hash, base: Hash): Option<Hash>
    decreases |es|
  {
    if es == [] then None
    else
      var here := if es[0].StorageWrite? && es[0].location == location && es[0].value != base
                  then Some(es[0].value) else None;
      OrElse(LastDiffering(es[1..], location, base), here)
  }

  /** Reference definition of the "before" entry for `location` after the
      events: the entry already there, or else the first value written. */
  function ExpectedOld(d: Dog, es: seq<Event>, location: Hash): Option<Hash>
  {
    OrElse(Lookup(d.storageOld, location), FirstWritten(es, location))
  }

  /** Reference definition of the "after" entry for `location`: the last
      written value that differs from the "before" value, or else the entry
      already there. */
  function ExpectedNew(d: Dog, es: seq<Event>, location: Hash): Option<Hash>
  {
    match ExpectedOld(d, es, location)
    case None => Lookup(d.storageNew, location)
    case Some(base) => OrElse(LastDiffering(es, location, base), Lookup(d.storageNew, location))
  }

  /** A dog that is off ignores everything the execution path sends it. */
  lemma {:induction false} OffDogIgnoresEvents(d: Dog, es: seq<Event>)
    requires !d.turnOn
    ensures ApplyAll(d, es) == d
    decreases |es|
  {
    if es != [] {
      assert Step(d, es[0]) == d;
      OffDogIgnoresEvents(d, es[1..]);
    }
  }

  /** The trace is append-only: a dog that is on ends with its old trace
      followed by exactly the notes sent to it. */
  lemma {:induction false} TraceAppendOnly(d: Dog, es: seq<Event>)
    requires d.turnOn
    ensures ApplyAll(d, es).trace == d.trace + Notes(es)
    decreases |es|
  {
    if es != [] {
      var d1 := Step(d, es[0]);
      assert d1.turnOn;
      TraceAppendOnly(d1, es[1..]);
      assert d1.trace == d.trace + (if es[0].TraceNote? then [es[0].note] else []);
    }
  }

  /** The throw flag ends set exactly when it was set or a failure was
      reported while the dog was on. */
  lemma {:induction false} ThrowFlagRecordsFailures(d: Dog, es: seq<Event>)
    requires d.turnOn
    ensures ApplyAll(d, es).hasThrow <==> d.hasThrow || AnyThrow(es)
    decreases |es|
  {
    if es != [] {
      var d1 := Step(d, es[0]);
      assert d1.turnOn;
      ThrowFlagRecordsFailures(d1, es[1..]);
    }
  }

  /** A "before" value, once recorded, is never changed. */
  lemma {:induction false} StorageOldWriteOnce(d: Dog, es: seq<Event>, location: Hash)
    requires location in d.storageOld
    ensures location in ApplyAll(d, es).storageOld
    ensures ApplyAll(d, es).storageOld[location] == d.storageOld[location]
    decreases |es|
  {
    if es != [] {
      StorageOldWriteOnce(Step(d, es[0]), es[1..], location);
    }
  }

  /** For a dog that is on, the before/after maps after any sequence of
      events agree, location by location, with the reference definitions:
      first value seen, and last value differing from it. */
  lemma {:induction false} StorageDiffMatchesReference(d: Dog, es: seq<Event>, location: Hash)
    requires d.turnOn
    ensures Lookup(ApplyAll(d, es).storageOld, location) == ExpectedOld(d, es, location)
    ensures Lookup(ApplyAll(d, es).storageNew, location) == ExpectedNew(d, es, location)
    decreases |es|
  {
    if es != [] {
      var e := es[0];
      var d1 := Step(d, e);
      assert d1.turnOn;
      StorageDiffMatchesReference(d1, es[1..], location);
      if e.StorageWrite? && e.location == location {
        if location !in d.storageOld {
          assert Lookup(d1.storageOld, location) == Some(e.value);
          assert Lookup(d1.storageNew, location) == Lookup(d.storageNew, location);
        }
      } else {
        assert Lookup(d1.storageOld, location) == Lookup(d.storageOld, location);
        assert Lookup(d1.storageNew, location) == Lookup(d.storageNew, location);
      }
    }
  }

  /** A location written twice with the same value ends with a "before"
      entry and no "after" entry. */
  lemma RepeatedWriteRecordsNoChange(d: Dog, location: Hash, value: Hash)
    requires d.turnOn && d.storageOld == map[] && d.storageNew == map[]
    ensures var r := ApplyAll(d, [StorageWrite(location, value), StorageWrite(location, value)]);
      r.storageOld == map[location := value] && r.storageNew == map[]
  {
    var es := [StorageWrite(location, value), StorageWrite(location, value)];
    var d1 := Write2Storage(d, location, value);
    var d2 := Write2Storage(d1, location, value);
    assert ApplyAll(d, es) == ApplyAll(d1, es[1..]);
    assert ApplyAll(d1, es[1..]) == d2;
  }

  /** The "after" map is not a net diff: a location set away from its first
      value and then back keeps the intermediate value as its "after"
      entry. */
  lemma WriteBackKeepsIntermediateValue(d: Dog, location: Hash, v0: Hash, v1: Hash)
    requires d.turnOn && d.storageOld == map[] && d.storageNew == map[] && v0 != v1
    ensures var r := ApplyAll(d, [StorageWrite(location, v0), StorageWrite(location, v1), StorageWrite(location, v0)]);
      r.storageOld == map[location := v0] && r.storageNew == map[location := v1]
  {
    var es := [StorageWrite(location, v0), StorageWrite(location, v1), StorageWrite(location, v0)];
    var d1 := Write2Storage(d, location, v0);
    var d2 := Write2Storage(d1, location, v1);
    var d3 := Write2Storage(d2, location, v0);
    assert ApplyAll(d, es) == ApplyAll(d1, es[1..]);
    assert ApplyAll(d1, es[1..]) == ApplyAll(d2, es[2..]);
    assert ApplyAll(d2, es[2..]) == d3;
  }

  /** Arming is once per transaction: a second `Watch` of the same
      transaction, by either dog and against any state, changes nothing. */
  lemma WatchArmsOncePerTx(ds: Dogs, first: Which, second: Which, w: World, w': World, tx: Option<Tx>)
    ensures var once := Watch(ds, first, w, tx); Watch(once, second, w', tx) == once
  {
  }

  /** One transaction's session with the corrected finalisation: `Start`,
      `Watch`, the execution path's events, then `FinalizeIdle`. The dog
      ends off; it posts exactly when some note was traced and the report
      encodes, and the report carries exactly those notes, the balance
      captured when arming, and whether a failure was reported. */
  lemma {:induction false} SessionLifecycle(ds: Dogs, which: Which, w: World, tx: Option<Tx>, es: seq<Event>,
                                            after: World, receipt: Receipt, tracer: Option<string>, encodes: bool)
    requires Watchable(tx) && tx.value.hash !in ds.handled
    ensures var armed := Watch(Set(ds, which, Start(Get(ds, which))), which, w, tx);
      var e := FinalizeIdle(ApplyAll(Get(armed, which), es), after, receipt, tracer, encodes);
      && !e.dog.turnOn
      && armed.handled == ds.handled + {tx.value.hash}
      && (e.posted.Some? <==> Notes(es) != [] && encodes)
      && (e.posted.Some? ==>
            && e.posted.value.trace == Notes(es)
            && e.posted.value.balanceOld == GetBalance(w, tx.value.to.value)
            && e.posted.value.balanceNew == GetBalance(after, tx.value.to.value)
            && (e.posted.value.hasThrow <==> AnyThrow(es)))
  {
    var started := Set(ds, which, Start(Get(ds, which)));
    var armed := Watch(started, which, w, tx);
    var d := Get(armed, which);
    assert d.turnOn && d.trace == [] && !d.hasThrow && d.tx == tx;
    TraceAppendOnly(d, es);
    ThrowFlagRecordsFailures(d, es);
  }

  /** As written, `EndTracer` leaves the dog on when the report fails to
      encode, so the dog keeps recording whatever runs next. */
  lemma EndTracerStaysOnWhenEncodingFails(d: Dog, w: World, receipt: Receipt, tracerResult: string, note: string)
    requires Consistent(d) && d.turnOn && |d.trace| != 0
    ensures var e := EndTracer(d, w, receipt, tracerResult, false);
      e.dog.turnOn && e.posted.None? && Write2Trace(e.dog, note).trace == d.trace + [note]
  {
  }
}
