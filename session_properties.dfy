/** Properties of the dialog's window and estimate bookkeeping. */
module SessionProperties {
  import opened Wrappers
  import opened Numbers
  import opened Seismic
  import opened Documents
  import opened Sessions

  /** A record of `n` samples at rate `fs`; the sample values play no part here. */
  function Silent(n: nat, fs: Rate): (rec: Record)
    ensures |rec.signal| == n && rec.fs == fs
  {
    Record(seq(n, i => 0.0), fs)
  }

  /** `set_margin` keeps an estimate that lies inside the signal strictly inside the window. */
  lemma SetMarginKeepsEstimateInside(s: Session, rec: Record, margin: real)
    requires margin > 0.0
    requires 0 < s.eventTime < |rec.signal|
    ensures SetMargin(s, rec, margin).Ok?
    ensures var w := SetMargin(s, rec, margin).value;
      w.start < s.eventTime as real < w.end
  {
  }

  /** Away from the signal's ends the margin window is symmetric and at least a second wide. */
  lemma SetMarginUnclampedWidth(s: Session, rec: Record, margin: real)
    requires margin > 0.0
    requires var m := EffectiveMargin(rec.fs, margin);
      0.0 <= s.eventTime as real - m && s.eventTime as real + m <= |rec.signal| as real
    ensures var w := SetMargin(s, rec, margin).value; var m := EffectiveMargin(rec.fs, margin);
      && s.eventTime as real - w.start == w.end - s.eventTime as real == m
      && w.end - w.start >= rec.fs
  {
  }

  /** With the estimate unchanged, a second `set_margin` with the same margin changes nothing. */
  lemma SetMarginIdempotent(s: Session, rec: Record, margin: real)
    requires margin > 0.0
    ensures SetMargin(SetMargin(s, rec, margin).value, rec, margin) == SetMargin(s, rec, margin)
  {
  }

  /** `set_margin` may leave `_end` at the signal's length, a value the constructor
      rejects: `0 <= end < len(signal)` does not survive construction. */
  lemma SetMarginCanReachSignalEnd()
    ensures var rec := Silent(1000, 100.0);
      && Create(rec, 400, 600, None).Ok?
      && SetMargin(Create(rec, 400, 600, None).value, rec, 500.0).Ok?
      && SetMargin(Create(rec, 400, 600, None).value, rec, 500.0).value.end == 1000.0
      && Create(rec, 400, 1000, None) == Err(InvalidEnd)
  {
  }

  /** 10000 samples at 100 Hz, window [400, 600]: construction succeeds with the
      midpoint estimate, and a 50-sample margin gives the window [450, 550]. */
  lemma ScenarioMidpointAndMinimumMargin()
    ensures var rec := Silent(10000, 100.0);
      && Create(rec, 400, 600, None) == Ok(Session(400.0, 600.0, 500, None, 0.5, 99.5))
      && SetMargin(Create(rec, 400, 600, None).value, rec, 50.0).value.start == 450.0
      && SetMargin(Create(rec, 400, 600, None).value, rec, 50.0).value.end == 550.0
  {
  }

  /** A window of 0.2 s at 100 Hz is refused. */
  lemma ScenarioWindowTooShort()
    ensures Create(Silent(10000, 100.0), 400, 420, None) == Err(WindowTooShort)
  {
  }

  /** The first run uses the margin window, not the caller's: with the default
      margin of 5 s at 100 Hz the window [400, 600] becomes [0, 1000]. */
  lemma FirstWindowIsTheMarginWindow()
    ensures var r := Initialize(Silent(10000, 100.0), 400, 600, None, 500.0);
      r.Ok? && r.value.start == 0.0 && r.value.end == 1000.0 && r.value.eventTime == 500
  {
  }

  /** An estimate is taken as it comes, even outside the window. */
  lemma EstimateMayLeaveWindow()
    ensures var rec := Silent(10000, 100.0);
      var s := ReceiveEstimate(Create(rec, 400, 600, None).value, 900);
      s.end < s.eventTime as real && s.start == 400.0 && s.end == 600.0
  {
  }

  /** Repeating an identical bound edit changes nothing. */
  lemma BoundEditsIdempotent(s: Session, rec: Record, t: real)
    ensures StartPointChanged(StartPointChanged(s, rec, t), rec, t) == StartPointChanged(s, rec, t)
    ensures EndPointChanged(EndPointChanged(s, rec, t), rec, t) == EndPointChanged(s, rec, t)
  {
  }

  /** The two bound edits touch disjoint parts of the state, so their order does not matter. */
  lemma BoundEditsCommute(s: Session, rec: Record, a: real, b: real)
    ensures EndPointChanged(StartPointChanged(s, rec, a), rec, b) ==
            StartPointChanged(EndPointChanged(s, rec, b), rec, a)
  {
  }

  /** Scaling by a positive rate preserves order. */
  lemma ScaleMonotone(x: real, y: real, fs: Rate)
    requires x <= y
    ensures x * fs <= y * fs
  {
    assert (y - x) * fs >= 0.0;
  }

  /** Two times at least half a second apart, in samples. */
  lemma ScaledGap(t: real, t': real, fs: Rate)
    requires 0.0 <= t && t + MinimumMarginInSecs <= t'
    ensures 0.0 <= t * fs && t * fs + MinimumMarginSamples(fs) <= t' * fs
  {
    ScaleMonotone(0.0, t, fs);
    ScaleMonotone(t + MinimumMarginInSecs, t', fs);
    assert (t + MinimumMarginInSecs) * fs == t * fs + MinimumMarginInSecs * fs;
  }

  /** After a start edit, any end the end spin box still allows lies more than half a
      second minus one sample past the new start (truncation can cost that sample).
      Times are multiplied by the rate exactly, not in floating point. */
  lemma StartEditCoupling(s: Session, rec: Record, t: real, t': real)
    requires 0.0 <= t
    requires StartSample(rec.fs, t) as real != s.start
    requires t' >= StartPointChanged(s, rec, t).endMinimum
    requires t' * rec.fs <= |rec.signal| as real
    ensures EndSample(rec, t') as real - StartPointChanged(s, rec, t).start > MinimumMarginSamples(rec.fs) - 1.0
  {
    ScaledGap(t, t', rec.fs);
    var k, j := StartSample(rec.fs, t), EndSample(rec, t');
    assert k as real <= t * rec.fs;
    assert j as real > t' * rec.fs - 1.0;
  }

  /** After an end edit, any start the start spin box still allows lies more than half a
      second minus one sample before the new end, with exact multiplication. */
  lemma EndEditCoupling(s: Session, rec: Record, t: real, t': real)
    requires EndSample(rec, t) as real != s.end
    requires t * rec.fs <= |rec.signal| as real
    requires 0.0 <= t' <= EndPointChanged(s, rec, t).startMaximum
    ensures EndPointChanged(s, rec, t).end - StartSample(rec.fs, t') as real > MinimumMarginSamples(rec.fs) - 1.0
  {
    ScaledGap(t', t, rec.fs);
    var k, j := StartSample(rec.fs, t'), EndSample(rec, t);
    assert k as real <= t' * rec.fs;
    assert j as real > t * rec.fs - 1.0;
  }

  /** The coupling does not restore the half-second minimum exactly: at 3 Hz, start
      edited to 0.4 s and end to the allowed 0.9 s give a one-sample window. */
  lemma CouplingAllowsShortWindow()
    ensures var rec := Silent(100, 3.0);
      var s0 := Create(rec, 10, 20, None).value;
      var s1 := StartPointChanged(s0, rec, 0.4);
      var s2 := EndPointChanged(s1, rec, s1.endMinimum);
      s2.start == 1.0 && s2.end == 2.0 && s2.end - s2.start < MinimumMarginSamples(rec.fs)
  {
    var rec := Silent(100, 3.0);
    assert StartSample(3.0, 0.4) == 1;
    assert EndSample(rec, 0.9) == 2;
  }

  /** Refining an existing event and accepting before any estimate writes nothing. */
  lemma SaveWithoutEstimateIsNoOp(rec: Record, start: int, end: int, event: SeismicEvent, margin: real)
    requires Initialize(rec, start, end, Some(event), margin).Ok?
    ensures SaveCall(Initialize(rec, start, end, Some(event), margin).value) == None
  {
  }

  /** After an estimate, accepting edits the existing event exactly when the time moved,
      and otherwise creates a new event at the estimate. */
  lemma SaveAfterEstimate(s: Session, time: int)
    ensures SaveCall(ReceiveEstimate(s, time)) ==
      match s.seismicEvent
      case Some(e) =>
        if e.time == time then None
        else Some(EditEventCall(e, time, MethodTakanami, ModeAutomatic, StatusReported))
      case None => Some(CreateEventCall(time, MethodTakanami, ModeAutomatic, StatusReported))
  {
  }

  /** Window edits and margins never change what accepting writes. */
  lemma SaveIgnoresWindow(s: Session, rec: Record, t: real, margin: real)
    ensures SaveCall(StartPointChanged(s, rec, t)) == SaveCall(s)
    ensures SaveCall(EndPointChanged(s, rec, t)) == SaveCall(s)
    ensures margin > 0.0 ==> SaveCall(SetMargin(s, rec, margin).value) == SaveCall(s)
  {
  }
}
