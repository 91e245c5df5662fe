/** The window and estimate bookkeeping of the Takanami dialog, as pure
    transitions of its state. */
module Sessions {
  import opened Wrappers
  import opened Numbers
  import opened Seismic
  import opened Documents

  /** MINIMUM_MARGIN_IN_SECS. */
  const MinimumMarginInSecs: real := 0.5

  /** The ValueErrors the dialog raises. */
  datatype DialogError =
    | InvalidStart        // "Invalid t_start value"
    | InvalidEnd          // "Invalid t_end value"
    | WindowTooShort      // "Distance between t_start and t_end must be at least of 0.5 seconds"
    | EventOutsideWindow  // "Event time must be a value between t-start and t_end"
    | NonPositiveMargin   // "margin must be a positive value"

  /** The dialog's state: the analysis window `_start`/`_end` (sample positions,
      which `set_margin` may leave fractional), `event_time`, the event being
      refined, and the two spin-box limits the bound edits move (in seconds). */
  datatype Session = Session(
    start: real,
    end: real,
    eventTime: int,
    seismicEvent: Option<SeismicEvent>,
    endMinimum: real,
    startMaximum: real)

  /** The minimum window width in samples: half a second of signal. */
  function MinimumMarginSamples(fs: Rate): real
  {
    MinimumMarginInSecs * fs
  }

  /** The conditions the constructor checks on the window it is given. */
  predicate ValidInitialWindow(rec: Record, start: int, end: int)
  {
    && 0 <= start < |rec.signal|
    && 0 <= end < |rec.signal|
    && (end - start) as real >= MinimumMarginSamples(rec.fs)
  }

  /** The initial `event_time`: the event's own time, or the window's midpoint rounded down. */
  function InitialEventTime(start: int, end: int, event: Option<SeismicEvent>): (t: int)
    requires start <= end
    ensures event.Some? ==> t == event.value.time
    ensures event.None? ==> start <= t <= end && 2 * (t - start) <= end - start < 2 * (t - start) + 2
  {
    match event
    case Some(e) => e.time
    case None => start + (end - start) / 2
  }

  /** Construction of the dialog's state from sample indices: the checks in
      order, then the estimate and the spin boxes' initial limits. */
  function Create(rec: Record, start: int, end: int, event: Option<SeismicEvent>): (r: Result<Session, DialogError>)
    ensures r == Err(InvalidStart) <==> !(0 <= start < |rec.signal|)
    ensures r == Err(InvalidEnd) <==> 0 <= start < |rec.signal| && !(0 <= end < |rec.signal|)
    ensures r == Err(WindowTooShort) <==>
      0 <= start < |rec.signal| && 0 <= end < |rec.signal| && (end - start) as real < MinimumMarginSamples(rec.fs)
    ensures r == Err(EventOutsideWindow) <==>
      ValidInitialWindow(rec, start, end) && !(start < InitialEventTime(start, end, event) < end)
    ensures r.Ok? <==>
      ValidInitialWindow(rec, start, end) && start < InitialEventTime(start, end, event) < end
    ensures r.Ok? ==>
      && r.value.start == start as real && r.value.end == end as real
      && r.value.eventTime == InitialEventTime(start, end, event)
      && r.value.seismicEvent == event
      && r.value.endMinimum == MinimumMarginInSecs
      && r.value.startMaximum == |rec.signal| as real / rec.fs - MinimumMarginInSecs
    ensures r.Ok? ==>
      && r.value.start < r.value.eventTime as real < r.value.end
      && (r.value.end - r.value.start) / rec.fs >= MinimumMarginInSecs
  {
    var n := |rec.signal|;
    if !(0 <= start < n) then Err(InvalidStart)
    else if !(0 <= end < n) then Err(InvalidEnd)
    else if (end - start) as real < MinimumMarginSamples(rec.fs) then Err(WindowTooShort)
    else
      var t := InitialEventTime(start, end, event);
      if !(start < t < end) then Err(EventOutsideWindow)
      else
        WidthInSeconds((end - start) as real, rec.fs);
        Ok(Session(start as real, end as real, t, event, MinimumMarginInSecs,
                      n as real / rec.fs - MinimumMarginInSecs))
  }

  /** A width of at least half a second of samples spans at least half a second. */
  lemma WidthInSeconds(width: real, fs: Rate)
    requires width >= MinimumMarginSamples(fs)
    ensures width / fs >= MinimumMarginInSecs
  {
    assert width / fs * fs == width;
  }

  /** The margin actually used: never less than half a second of samples. */
  function EffectiveMargin(fs: Rate, margin: real): (m: real)
    ensures m >= MinimumMarginSamples(fs) && m >= margin
    ensures m == margin || m == MinimumMarginSamples(fs)
  {
    Max(MinimumMarginSamples(fs), margin)
  }

  /** `[start, end]` is the window of half-width `m` around `t`, clamped to the signal. */
  predicate MarginWindowOf(rec: Record, start: real, end: real, t: int, m: real)
  {
    && 0.0 <= start && t as real - m <= start && (start == 0.0 || start == t as real - m)
    && end <= |rec.signal| as real && end <= t as real + m
    && (end == |rec.signal| as real || end == t as real + m)
  }

  /** `set_margin`: rebuilds the window symmetrically around the estimate. */
  function SetMargin(s: Session, rec: Record, margin: real): (r: Result<Session, DialogError>)
    ensures r.Err? <==> margin <= 0.0
    ensures r.Err? ==> r.error == NonPositiveMargin
    ensures r.Ok? ==> r.value == s.(start := r.value.start, end := r.value.end)
    ensures r.Ok? ==>
      MarginWindowOf(rec, r.value.start, r.value.end, s.eventTime, EffectiveMargin(rec.fs, margin))
  {
    if margin <= 0.0 then Err(NonPositiveMargin)
    else
      var m := EffectiveMargin(rec.fs, margin);
      Ok(s.(start := Max(0.0, s.eventTime as real - m),
            end := Min(|rec.signal| as real, s.eventTime as real + m)))
  }

  /** The sample index a start-bound edit to `t` seconds selects, with `t * fs`
      computed exactly rather than in floating point. */
  function StartSample(fs: Rate, t: real): (k: int)
    ensures 0 <= k
    ensures k as real <= Max(0.0, t * fs) < k as real + 1.0
  {
    Trunc(Max(0.0, t * fs))
  }

  /** The sample index an end-bound edit to `t` seconds selects, with `t * fs`
      computed exactly rather than in floating point. */
  function EndSample(rec: Record, t: real): (k: int)
    ensures k <= |rec.signal|
    ensures |rec.signal| as real <= t * rec.fs ==> k == |rec.signal|
    ensures 0.0 <= t * rec.fs < |rec.signal| as real ==> k as real <= t * rec.fs < k as real + 1.0
    ensures t * rec.fs < 0.0 ==> k as real - 1.0 < t * rec.fs <= k as real
  {
    Trunc(Min(|rec.signal| as real, t * rec.fs))
  }

  /** `on_start_point_changed`: moves `_start` and the end spin box's minimum, and only
      when the selected index differs from `_start`. */
  function StartPointChanged(s: Session, rec: Record, t: real): (r: Session)
    ensures StartSample(rec.fs, t) as real == s.start ==> r == s
    ensures StartSample(rec.fs, t) as real != s.start ==>
      r == s.(start := StartSample(rec.fs, t) as real, endMinimum := t + MinimumMarginInSecs)
  {
    var k := StartSample(rec.fs, t);
    if s.start != k as real then s.(start := k as real, endMinimum := t + MinimumMarginInSecs) else s
  }

  /** `on_end_point_changed`: moves `_end` and the start spin box's maximum, and only
      when the selected index differs from `_end`. */
  function EndPointChanged(s: Session, rec: Record, t: real): (r: Session)
    ensures EndSample(rec, t) as real == s.end ==> r == s
    ensures EndSample(rec, t) as real != s.end ==>
      r == s.(end := EndSample(rec, t) as real, startMaximum := t - MinimumMarginInSecs)
  {
    var k := EndSample(rec, t);
    if s.end != k as real then s.(end := k as real, startMaximum := t - MinimumMarginInSecs) else s
  }

  /** `on_position_estimated`: the estimate replaces `event_time`, unchecked against the window. */
  function ReceiveEstimate(s: Session, time: int): (r: Session)
    ensures r.eventTime == time
    ensures r.start == s.start && r.end == s.end && r.seismicEvent == s.seismicEvent
    ensures r.endMinimum == s.endMinimum && r.startMaximum == s.startMaximum
  {
    s.(eventTime := time)
  }

  /** The state after a run reporting `d`, if it reports anything. */
  function Deliver(s: Session, d: Option<Estimation>): Session
  {
    match d
    case None => s
    case Some(e) => ReceiveEstimate(s, e.time)
  }

  /** `save_event`: the single document call it makes, if any. */
  function SaveCall(s: Session): (c: Option<DocumentCall>)
    ensures c.None? <==> s.seismicEvent.Some? && s.seismicEvent.value.time == s.eventTime
    ensures c.Some? ==>
      && c.value.time == s.eventTime
      && c.value.pickMethod == MethodTakanami
      && c.value.mode == ModeAutomatic
      && c.value.status == StatusReported
    ensures c.Some? ==> (c.value.EditEventCall? <==> s.seismicEvent.Some?)
    ensures c.Some? && c.value.EditEventCall? ==> c.value.event == s.seismicEvent.value
  {
    match s.seismicEvent
    case Some(e) =>
      if e.time != s.eventTime
      then Some(EditEventCall(e, s.eventTime, MethodTakanami, ModeAutomatic, StatusReported))
      else None
    case None => Some(CreateEventCall(s.eventTime, MethodTakanami, ModeAutomatic, StatusReported))
  }

  /** The constructor's state before its first run: validation, then `set_margin`
      with the default margin (in samples) loaded from the settings. */
  function Initialize(rec: Record, start: int, end: int, event: Option<SeismicEvent>, defaultMargin: real)
    : (r: Result<Session, DialogError>)
    ensures Create(rec, start, end, event).Err? ==> r == Create(rec, start, end, event)
    ensures Create(rec, start, end, event).Ok? ==> (r == Err(NonPositiveMargin) <==> defaultMargin <= 0.0)
    ensures r.Ok? <==>
      ValidInitialWindow(rec, start, end) && start < InitialEventTime(start, end, event) < end && defaultMargin > 0.0
    ensures r.Ok? ==>
      && r.value.eventTime == InitialEventTime(start, end, event)
      && r.value.seismicEvent == event
      && r.value.endMinimum == MinimumMarginInSecs
      && r.value.startMaximum == |rec.signal| as real / rec.fs - MinimumMarginInSecs
      && MarginWindowOf(rec, r.value.start, r.value.end, r.value.eventTime, EffectiveMargin(rec.fs, defaultMargin))
  {
    match Create(rec, start, end, event)
    case Err(e) => Err(e)
    case Ok(s) => SetMargin(s, rec, defaultMargin)
  }
}
