/** TakanamiDialog: the refinement session. Its fields are updated in place by the
    spin-box handlers, `set_margin` and the estimate handler, and each update is
    the matching transition of `Sessions`. */
module Dialogs {
  import opened Wrappers
  import opened Seismic
  import opened Documents
  import opened Sessions
  import opened Tasks

  /** The dialog's standard buttons. */
  datatype Button = OkButton | ApplyButton | CancelButton

  class TakanamiDialog {
    const document: Document
    const record: Record
    const seismicEvent: Option<SeismicEvent>
    var start: real
    var end: real
    var eventTime: int
    /** Minimum time of the end spin box, in seconds. */
    var endMinimum: real
    /** Maximum time of the start spin box, in seconds. */
    var startMaximum: real
    /** The current task (`_task`). */
    var task: TakanamiTask

    function State(): Session
      reads this
    {
      Session(start, end, eventTime, seismicEvent, endMinimum, startMaximum)
    }

    ghost predicate Valid()
      reads this, task
    {
      record == document.record && task.record == record && task.Valid()
    }

    /** The fields as construction leaves them just before the first run, with a
        fresh task over the (margin) window. */
    constructor Init(document: Document, s: Session)
      ensures this.document == document && State() == s
      ensures fresh(task) && task.start == s.start && task.end == s.end
      ensures !task.abortRequested && task.requests == [] && task.emitted == []
      ensures Valid()
    {
      this.document := document;
      this.record := document.record;
      this.seismicEvent := s.seismicEvent;
      start, end, eventTime := s.start, s.end, s.eventTime;
      endMinimum, startMaximum := s.endMinimum, s.startMaximum;
      task := new TakanamiTask(document.record, s.start, s.end);
    }

    /** The dialog's constructor, on sample indices: it validates the window and the
        estimate, applies the default margin, and runs a first task over the margin
        window; a failed check is the ValueError it raises. */
    static method Open(document: Document, startSample: int, endSample: int,
                       seismicEvent: Option<SeismicEvent>, defaultMargin: real,
                       algorithm: Algorithm, timing: AbortTiming)
      returns (r: Result<TakanamiDialog, DialogError>)
      ensures var init := Initialize(document.record, startSample, endSample, seismicEvent, defaultMargin);
        && (r.Err? <==> init.Err?)
        && (r.Err? ==> r.error == init.error)
        && (r.Ok? ==>
          && fresh(r.value) && fresh(r.value.task) && r.value.Valid()
          && r.value.document == document
          && r.value.task.start == init.value.start && r.value.task.end == init.value.end
          && r.value.task.emitted ==
             Emissions(Delivered(algorithm, document.record, init.value.start, init.value.end, timing))
          && r.value.State() ==
             Deliver(init.value, Delivered(algorithm, document.record, init.value.start, init.value.end, timing)))
    {
      var init := Initialize(document.record, startSample, endSample, seismicEvent, defaultMargin);
      if init.Err? {
        return Err(init.error);
      }
      var d := new TakanamiDialog.Init(document, init.value);
      d.RunTask(algorithm, timing);
      return Ok(d);
    }

    /** Runs the current task and delivers its `position_estimated` signal, if any,
        to `on_position_estimated`. */
    method RunTask(algorithm: Algorithm, timing: AbortTiming)
      requires Valid()
      modifies this, task
      ensures Valid() && task == old(task)
      ensures task.abortRequested == (timing != NoAbort)
      ensures task.start == old(task.start) && task.end == old(task.end)
      ensures task.requests == old(task.requests) +
        (if timing == BeforeFirstCheckpoint then [] else [Tasks.TaskRequest(record, task.start, task.end)])
      ensures task.emitted == old(task.emitted) + Emissions(Delivered(algorithm, record, task.start, task.end, timing))
      ensures State() == Deliver(old(State()), Delivered(algorithm, record, task.start, task.end, timing))
    {
      var before := |task.emitted|;
      var outcome := task.Run(algorithm, timing);
      if before < |task.emitted| && task.emitted[before].PositionEstimated? {
        var signal := task.emitted[before];
        OnPositionEstimated(signal.time, signal.aic, signal.onset);
      }
    }

    /** `on_position_estimated`: takes the estimate; the AIC plot is not modelled. */
    method OnPositionEstimated(time: int, aic: seq<real>, onset: int)
      modifies this
      ensures State() == ReceiveEstimate(old(State()), time)
      ensures task == old(task)
    {
      eventTime := time;
    }

    /** `on_start_point_changed`, with the spin box's new time in seconds. */
    method OnStartPointChanged(t: real)
      modifies this
      ensures State() == StartPointChanged(old(State()), record, t)
      ensures task == old(task)
    {
      var k := StartSample(record.fs, t);
      if start != k as real {
        start := k as real;
        endMinimum := t + MinimumMarginInSecs;
      }
    }

    /** `on_end_point_changed`, with the spin box's new time in seconds. */
    method OnEndPointChanged(t: real)
      modifies this
      ensures State() == EndPointChanged(old(State()), record, t)
      ensures task == old(task)
    {
      var k := EndSample(record, t);
      if end != k as real {
        end := k as real;
        startMaximum := t - MinimumMarginInSecs;
      }
    }

    /** `set_margin`, with the margin in samples, as the constructor calls it, before
        the spin-box handlers are connected; a non-positive margin is the ValueError
        it raises, and leaves the state as it was. */
    method SetMargin(margin: real) returns (error: Option<DialogError>)
      modifies this
      ensures match Sessions.SetMargin(old(State()), record, margin)
        case Ok(s) => error == None && State() == s
        case Err(e) => error == Some(e) && State() == old(State())
      ensures task == old(task)
    {
      if margin <= 0.0 {
        return Some(NonPositiveMargin);
      }
      var m := EffectiveMargin(record.fs, margin);
      start := Numbers.Max(0.0, eventTime as real - m);
      end := Numbers.Min(|record.signal| as real, eventTime as real + m);
      return None;
    }

    /** `save_event`: at most one call on the document, as `SaveCall` says. */
    method SaveEvent()
      modifies document
      ensures document.calls == old(document.calls) +
        match SaveCall(State()) case Some(c) => [c] case None => []
    {
      if seismicEvent.Some? {
        if seismicEvent.value.time != eventTime {
          document.EditEvent(seismicEvent.value, eventTime, MethodTakanami, ModeAutomatic, StatusReported);
        }
      } else {
        document.CreateEvent(eventTime, MethodTakanami, ModeAutomatic, StatusReported);
      }
    }

    /** `on_click`: Ok commits the estimate; Apply runs a brand-new task over the
        current window; Cancel does nothing here. */
    method OnClick(button: Button, algorithm: Algorithm, timing: AbortTiming)
      requires Valid()
      modifies this, document
      ensures Valid()
      ensures button == OkButton ==>
        && document.calls == old(document.calls) + (match SaveCall(old(State())) case Some(c) => [c] case None => [])
        && State() == old(State()) && task == old(task)
      ensures button == ApplyButton ==>
        && fresh(task) && task.start == old(start) && task.end == old(end)
        && task.requests == (if timing == BeforeFirstCheckpoint then [] else [Tasks.TaskRequest(record, old(start), old(end))])
        && task.emitted == Emissions(Delivered(algorithm, record, old(start), old(end), timing))
        && State() == Deliver(old(State()), Delivered(algorithm, record, old(start), old(end), timing))
        && document.calls == old(document.calls)
      ensures button == CancelButton ==>
        State() == old(State()) && task == old(task) && document.calls == old(document.calls)
    {
      if button == OkButton {
        SaveEvent();
      }
      if button == ApplyButton {
        task := new TakanamiTask(record, start, end);
        RunTask(algorithm, timing);
      }
    }
  }
}
