/** The document the dialog commits to, seen as the record of the calls made on it. */
module Documents {
  import opened Seismic

  /** A call made on the document. */
  datatype DocumentCall =
    | CreateEventCall(time: int, pickMethod: PickMethod, mode: PickMode, status: PickStatus)
    | EditEventCall(event: SeismicEvent, time: int, pickMethod: PickMethod, mode: PickMode, status: PickStatus)

  class Document {
    const record: Record
    /** Every call made on the document, in order. */
    var calls: seq<DocumentCall>

    constructor (record: Record)
      ensures this.record == record && calls == []
    {
      this.record := record;
      calls := [];
    }

    method CreateEvent(time: int, pickMethod: PickMethod, mode: PickMode, status: PickStatus)
      modifies this
      ensures calls == old(calls) + [CreateEventCall(time, pickMethod, mode, status)]
    {
      calls := calls + [CreateEventCall(time, pickMethod, mode, status)];
    }

    method EditEvent(event: SeismicEvent, time: int, pickMethod: PickMethod, mode: PickMode, status: PickStatus)
      modifies this
      ensures calls == old(calls) + [EditEventCall(event, time, pickMethod, mode, status)]
    {
      calls := calls + [EditEventCall(event, time, pickMethod, mode, status)];
    }
  }
}
