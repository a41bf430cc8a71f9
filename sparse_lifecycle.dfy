/** The lifecycle that every cuSPARSE "info" wrapper gives its native handle.
    The constructor creates the handle. `Dispose()` destroys it at most once,
    because the `disposed` flag guards the destroy. The finalizer only reports
    an object that was never disposed. The wrapper's observable state is its
    `disposed` flag and last status, plus two ghost counters: how many times
    the native destroy was called, and how many not-disposed warnings were
    written. */
module SparseLifecycle {

  /** cusparseStatus: Success, or any other status the library reports. */
  datatype CusparseStatus = Success | Failed(code: int)

  /** CudaSparseException, carrying the status that caused it. */
  datatype CudaSparseException = CudaSparseException(status: CusparseStatus)

  /** The native create/destroy pair for one kind of info handle `H`.
      `create` fills a fresh handle and reports a status; `destroy` releases a
      handle and reports a status. */
  datatype InfoNative<!H> = InfoNative(create: () -> (CusparseStatus, H), destroy: H -> CusparseStatus)

  /** What Dispose(bool) reads and writes, with the two ghost counters. */
  datatype InfoState = InfoState(disposed: bool, res: CusparseStatus, destroyCalls: nat, warnings: nat)

  /** The invariant of a constructed wrapper: a live wrapper has not destroyed
      its handle yet, and a disposed wrapper has destroyed it exactly once. */
  predicate Consistent(s: InfoState)
  {
    s.destroyCalls == if s.disposed then 1 else 0
  }

  /** One call of Dispose(fDisposing). `destroyStatus` is what the native
      destroy returns if it is called. */
  function DisposeStep(s: InfoState, fDisposing: bool, destroyStatus: CusparseStatus): (t: InfoState)
    // the native destroy runs only on the explicit path, and only for a live object
    ensures t.destroyCalls == if fDisposing && !s.disposed then s.destroyCalls + 1 else s.destroyCalls
    // the explicit path always ends disposed, whatever status the destroy reported
    ensures t.disposed == (fDisposing || s.disposed)
    ensures t.res == if fDisposing && !s.disposed then destroyStatus else s.res
    // the finalizer path warns exactly when the object is still live
    ensures t.warnings == if !fDisposing && !s.disposed then s.warnings + 1 else s.warnings
    ensures Consistent(s) ==> Consistent(t)
  {
    var afterDestroy :=
      if fDisposing && !s.disposed then
        s.(res := destroyStatus, destroyCalls := s.destroyCalls + 1, disposed := true)
      else s;
    if !fDisposing && !afterDestroy.disposed then
      afterDestroy.(warnings := afterDestroy.warnings + 1)
    else afterDestroy
  }

  /** The two ways a wrapper can be torn down: its public Dispose(), which
      calls Dispose(true), or the finalizer, which calls Dispose(false). */
  datatype Teardown = ExplicitDispose | Finalizer

  /** The state after a sequence of teardown calls on one object. */
  function Replay(s: InfoState, ts: seq<Teardown>, destroyStatus: CusparseStatus): InfoState
    decreases |ts|
  {
    if ts == [] then s
    else Replay(DisposeStep(s, ts[0].ExplicitDispose?, destroyStatus), ts[1..], destroyStatus)
  }

  /** The number of finalizer calls before the first explicit Dispose(). */
  function FinalizersBeforeDispose(ts: seq<Teardown>): nat
    decreases |ts|
  {
    if ts == [] || ts[0].ExplicitDispose? then 0 else 1 + FinalizersBeforeDispose(ts[1..])
  }

  /** No sequence of teardown calls breaks the destroy-count invariant. */
  lemma {:induction false} ReplayKeepsConsistent(s: InfoState, ts: seq<Teardown>, destroyStatus: CusparseStatus)
    requires Consistent(s)
    ensures Consistent(Replay(s, ts, destroyStatus))
    decreases |ts|
  {
    if ts != [] {
      ReplayKeepsConsistent(DisposeStep(s, ts[0].ExplicitDispose?, destroyStatus), ts[1..], destroyStatus);
    }
  }

  /** The object ends disposed if and only if it already was, or some
      explicit Dispose() was made. The finalizer never disposes. */
  lemma {:induction false} ReplayDisposedIff(s: InfoState, ts: seq<Teardown>, destroyStatus: CusparseStatus)
    ensures Replay(s, ts, destroyStatus).disposed <==> s.disposed || ExplicitDispose in ts
    decreases |ts|
  {
    if ts != [] {
      var t := DisposeStep(s, ts[0].ExplicitDispose?, destroyStatus);
      ReplayDisposedIff(t, ts[1..], destroyStatus);
      assert ExplicitDispose in ts <==> ts[0] == ExplicitDispose || ExplicitDispose in ts[1..] by {
        assert ts == [ts[0]] + ts[1..];
      }
    }
  }

  /** The native destroy is called exactly once if the object was disposed
      explicitly at least once, and never otherwise, so at most once overall. */
  lemma ReplayDestroysAtMostOnce(s: InfoState, ts: seq<Teardown>, destroyStatus: CusparseStatus)
    requires Consistent(s)
    ensures Replay(s, ts, destroyStatus).destroyCalls == if s.disposed || ExplicitDispose in ts then 1 else 0
    ensures Replay(s, ts, destroyStatus).destroyCalls <= 1
  {
    ReplayKeepsConsistent(s, ts, destroyStatus);
    ReplayDisposedIff(s, ts, destroyStatus);
  }

  /** A live object writes one not-disposed warning for each finalizer call
      made before its first explicit Dispose(). A disposed object writes none. */
  lemma {:induction false} ReplayWarnings(s: InfoState, ts: seq<Teardown>, destroyStatus: CusparseStatus)
    ensures Replay(s, ts, destroyStatus).warnings
            == s.warnings + if s.disposed then 0 else FinalizersBeforeDispose(ts)
    decreases |ts|
  {
    if ts != [] {
      var t := DisposeStep(s, ts[0].ExplicitDispose?, destroyStatus);
      ReplayWarnings(t, ts[1..], destroyStatus);
    }
  }

  /** A failing destroy is ignored, and the last stored status plays no
      part either: two objects that agree on the disposed flag and the two
      counters still agree on them after the same teardown calls, whatever
      statuses their native destroys report. */
  lemma {:induction false} ReplayIgnoresDestroyStatus(a: InfoState, b: InfoState, ts: seq<Teardown>, st1: CusparseStatus, st2: CusparseStatus)
    requires a.disposed == b.disposed && a.destroyCalls == b.destroyCalls && a.warnings == b.warnings
    ensures Replay(a, ts, st1).disposed == Replay(b, ts, st2).disposed
    ensures Replay(a, ts, st1).destroyCalls == Replay(b, ts, st2).destroyCalls
    ensures Replay(a, ts, st1).warnings == Replay(b, ts, st2).warnings
    decreases |ts|
  {
    if ts != [] {
      var f := ts[0].ExplicitDispose?;
      ReplayIgnoresDestroyStatus(DisposeStep(a, f, st1), DisposeStep(b, f, st2), ts[1..], st1, st2);
    }
  }

  /** Dispose() is idempotent. A second explicit Dispose() changes nothing,
      whatever the native destroy would have reported. */
  lemma SecondDisposeIsNoOp(s: InfoState, st1: CusparseStatus, st2: CusparseStatus)
    ensures DisposeStep(DisposeStep(s, true, st1), true, st2) == DisposeStep(s, true, st1)
  {
  }
}
