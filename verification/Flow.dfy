/** flow.go: the flow record that an endpoint's receiver and sender share. */
module FlowControl {

  datatype Flow = Flow(msgCap: int, bytesCap: int)

  /** A negative capacity means no change. */
  function Updated(f: Flow, msgCap: int, bytesCap: int): Flow {
    Flow(if msgCap >= 0 then msgCap else f.msgCap, if bytesCap >= 0 then bytesCap else f.bytesCap)
  }

  class FlowCtrl {
    var AvailReaderMsgCap: int
    var AvailReaderBytesCap: int

    constructor ()
      ensures View() == Flow(0, 0)
    {
      AvailReaderMsgCap, AvailReaderBytesCap := 0, 0;
    }

    /** GetFlow's copy of the record. */
    function View(): Flow
      reads this
    {
      Flow(AvailReaderMsgCap, AvailReaderBytesCap)
    }

    method UpdateFlow(availReaderMsgCap: int, availReaderBytesCap: int) returns (copy: Flow)
      modifies this
      ensures copy == View() == Updated(old(View()), availReaderMsgCap, availReaderBytesCap)
    {
      if availReaderMsgCap >= 0 {
        AvailReaderMsgCap := availReaderMsgCap;
      }
      if availReaderBytesCap >= 0 {
        AvailReaderBytesCap := availReaderBytesCap;
      }
      copy := View();
    }
  }
}
