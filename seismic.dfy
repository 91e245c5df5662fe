/** The parts of the seismic record module the dialog uses: the record, an
    already picked event, the tags written with a pick, and the interface of the
    Takanami autoregressive estimator. */
module Seismic {
  import opened Wrappers

  /** A sampling rate in Hz; a record's rate is always positive. */
  type Rate = x: real | x > 0.0 witness 1.0

  /** An opened seismic record: its samples and its sampling rate. */
  datatype Record = Record(signal: seq<real>, fs: Rate)

  /** A seismic event picked on the record, with its arrival time as a sample index. */
  datatype SeismicEvent = SeismicEvent(time: int)

  /** Picking method tags; `OtherMethod` stands for every other method the record module defines. */
  datatype PickMethod = MethodTakanami | OtherMethod

  /** Picking mode tags; `OtherMode` stands for every other mode. */
  datatype PickMode = ModeAutomatic | OtherMode

  /** Event status tags; `OtherStatus` stands for every other status. */
  datatype PickStatus = StatusReported | OtherStatus

  /** What the estimator returns: the refined arrival time (a sample index),
      the AIC curve and the index of the onset within that curve. */
  datatype Estimation = Estimation(time: int, aic: seq<real>, onset: int)

  /** The Takanami estimator, called with the signal, the rate and the window
      bounds in seconds; `None` stands for a run that raises. */
  type Algorithm = (seq<real>, Rate, real, real) -> Option<Estimation>
}
