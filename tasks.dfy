/** TakanamiTask: one cancellable run of the estimator over a window of the
    record, reporting through the `position_estimated` and `finished` signals. */
module Tasks {
  import opened Wrappers
  import opened Numbers
  import opened Seismic

  /** A signal emitted by a task. */
  datatype Signal = PositionEstimated(time: int, aic: seq<real>, onset: int) | Finished

  /** The window, in seconds, with which the estimator was called. */
  datatype Request = Request(startSecs: real, endSecs: real)

  /** Where a concurrent `abort()` lands with respect to the two checkpoints of `run()`:
      not at all, before the first one, or between the two (while the estimator runs). */
  datatype AbortTiming = NoAbort | BeforeFirstCheckpoint | BeforeSecondCheckpoint

  /** How `run()` ends: it returns, or the estimator's exception propagates out of it. */
  datatype RunOutcome = Returned | Raised

  /** The window handed to the estimator: the task's bounds clamped to the
      signal and converted to seconds. */
  function TaskRequest(rec: Record, start: real, end: real): (q: Request)
    ensures 0.0 <= q.startSecs && q.startSecs * rec.fs == Max(0.0, start)
    ensures q.endSecs * rec.fs <= |rec.signal| as real
    ensures q.endSecs * rec.fs == Min(|rec.signal| as real, end)
  {
    Request(Max(0.0, start) / rec.fs, Min(|rec.signal| as real, end) / rec.fs)
  }

  /** The estimator's answer for a task over `[start, end]`. */
  function Invoke(algorithm: Algorithm, rec: Record, start: real, end: real): Option<Estimation>
  {
    var q := TaskRequest(rec, start, end);
    algorithm(rec.signal, rec.fs, q.startSecs, q.endSecs)
  }

  /** The estimate a run reports, if any: only a run that is never aborted and
      whose estimator does not raise reports one. */
  function Delivered(algorithm: Algorithm, rec: Record, start: real, end: real, timing: AbortTiming): (d: Option<Estimation>)
    ensures d.Some? <==> timing == NoAbort && Invoke(algorithm, rec, start, end).Some?
    ensures d.Some? ==> d == Invoke(algorithm, rec, start, end)
  {
    if timing == NoAbort then Invoke(algorithm, rec, start, end) else None
  }

  /** The signals a run emits for the estimate it reports. */
  function Emissions(d: Option<Estimation>): seq<Signal>
  {
    match d
    case None => []
    case Some(e) => [PositionEstimated(e.time, e.aic, e.onset), Finished]
  }

  /** A well-formed emission log: a sequence of `position_estimated`, `finished` pairs. */
  ghost predicate Paired(log: seq<Signal>)
    decreases |log|
  {
    log == [] || (2 <= |log| && log[0].PositionEstimated? && log[1] == Finished && Paired(log[2..]))
  }

  /** Number of `finished` signals in a log. */
  function Finishes(log: seq<Signal>): nat
    decreases |log|
  {
    if log == [] then 0 else (if log[0] == Finished then 1 else 0) + Finishes(log[1..])
  }

  /** Number of `position_estimated` signals in a log. */
  function Estimates(log: seq<Signal>): nat
    decreases |log|
  {
    if log == [] then 0 else (if log[0].PositionEstimated? then 1 else 0) + Estimates(log[1..])
  }

  /** What one run emits is a well-formed log. */
  lemma EmissionsPaired(d: Option<Estimation>)
    ensures Paired(Emissions(d))
  {
    if d.Some? {
      assert Emissions(d)[2..] == [];
    }
  }

  /** Well-formed logs are closed under concatenation, so successive runs keep the log well-formed. */
  lemma {:induction false} PairedAppend(a: seq<Signal>, b: seq<Signal>)
    requires Paired(a) && Paired(b)
    ensures Paired(a + b)
    decreases |a|
  {
    if a == [] {
      assert a + b == b;
    } else {
      assert (a + b)[2..] == a[2..] + b;
      PairedAppend(a[2..], b);
    }
  }

  /** In a well-formed log every `finished` sits at an odd position, right after a
      `position_estimated`, and the two signals occur equally often. */
  lemma {:induction false} PairedShape(log: seq<Signal>)
    requires Paired(log)
    ensures |log| % 2 == 0
    ensures forall i :: 0 <= i < |log| ==> (log[i] == Finished <==> i % 2 == 1)
    ensures forall i :: 0 < i < |log| && log[i] == Finished ==> log[i - 1].PositionEstimated?
    ensures Finishes(log) == Estimates(log) == |log| / 2
    decreases |log|
  {
    if log != [] {
      var rest := log[2..];
      PairedShape(rest);
      forall i | 0 <= i < |log|
        ensures log[i] == Finished <==> i % 2 == 1
      {
        if 2 <= i {
          assert log[i] == rest[i - 2];
        }
      }
      assert log[1..][1..] == rest;
      assert log[1..][0] == Finished;
    }
  }

  class TakanamiTask {
    const record: Record
    const start: real
    const end: real
    /** The `_abort` flag. */
    var abortRequested: bool
    /** Every call into the estimator, in order. */
    var requests: seq<Request>
    /** Every signal emitted, in order. */
    var emitted: seq<Signal>

    ghost predicate Valid()
      reads this
    {
      Paired(emitted)
    }

    constructor (record: Record, start: real, end: real)
      ensures this.record == record && this.start == start && this.end == end
      ensures !abortRequested && requests == [] && emitted == []
      ensures Valid()
    {
      this.record := record;
      this.start := start;
      this.end := end;
      abortRequested := false;
      requests := [];
      emitted := [];
    }

    /** Requests cancellation; idempotent. */
    method Abort()
      modifies this
      ensures abortRequested
      ensures requests == old(requests) && emitted == old(emitted)
    {
      abortRequested := true;
    }

    /** Runs the estimator over the clamped window. The flag is cleared on entry,
        so an abort requested before the run is forgotten; an abort landing at
        `timing` is seen at the next checkpoint and silences the run. */
    method Run(algorithm: Algorithm, timing: AbortTiming) returns (outcome: RunOutcome)
      requires Valid()
      modifies this
      ensures Valid()
      ensures abortRequested == (timing != NoAbort)
      ensures requests == old(requests) +
        (if timing == BeforeFirstCheckpoint then [] else [TaskRequest(record, start, end)])
      ensures emitted == old(emitted) + Emissions(Delivered(algorithm, record, start, end, timing))
      ensures outcome == Raised <==>
        timing != BeforeFirstCheckpoint && Invoke(algorithm, record, start, end).None?
    {
      abortRequested := false;
      var q := TaskRequest(record, start, end);
      if timing == BeforeFirstCheckpoint {
        Abort();
      }
      if abortRequested {
        return Returned;
      }
      requests := requests + [q];
      var estimate := algorithm(record.signal, record.fs, q.startSecs, q.endSecs);
      if timing == BeforeSecondCheckpoint {
        Abort();
      }
      if estimate.None? {
        return Raised;
      }
      if abortRequested {
        return Returned;
      }
      var e := estimate.value;
      emitted := emitted + [PositionEstimated(e.time, e.aic, e.onset)];
      emitted := emitted + [Finished];
      assert emitted == old(emitted) + Emissions(Some(e));
      EmissionsPaired(Some(e));
      PairedAppend(old(emitted), Emissions(Some(e)));
      return Returned;
    }
  }

  /** `run` clears the flag on entry: an `abort()` made before the run starts is
      lost, and the run reports as if no abort had been asked for. */
  method AbortBeforeRunIsForgotten(rec: Record, start: real, end: real, algorithm: Algorithm)
    returns (emitted: seq<Signal>)
    ensures emitted == Emissions(Invoke(algorithm, rec, start, end))
  {
    var task := new TakanamiTask(rec, start, end);
    task.Abort();
    var outcome := task.Run(algorithm, NoAbort);
    emitted := task.emitted;
  }
}
