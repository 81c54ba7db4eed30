/** The transport capability the devices consume: `send(command, payload)`
    answering a boolean. The HTTP exchange, retries and time-outs behind it
    are not part of this model; the reply is left open (any boolean), and the
    requests sent are recorded so that contracts can say what went out. */
module Transport {

  /** The body posted with a command: none, or one form field. */
  datatype Payload = NoBody | Form(field: string, value: int)

  datatype Request = Request(command: string, payload: Payload)

  class Transport {
    /** Every request sent so far, oldest first. */
    var sent: seq<Request>

    constructor ()
      ensures sent == []
    {
      sent := [];
    }

    /** Sends one request; the answer is whatever the unit (or the failure
        of the exchange) says. */
    method Send(r: Request) returns (ok: bool)
      modifies this
      ensures sent == old(sent) + [r]
    {
      sent := sent + [r];
      ok :| true;
    }
  }
}
