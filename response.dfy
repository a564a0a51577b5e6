/**
 * The JSON envelopes of src/utils/response.util.js, and the bare `{message}` object
 * the todo handlers send with their 404 replies.
 */
module Response {
  import opened Wrappers

  /**
   * A response body. `Envelope` is `{status, message, data}`, where an absent `data`
   * (JavaScript `undefined`) is dropped when the object is serialised; `Bare` is `{message}`.
   */
  datatype Body<+D> = Envelope(status: string, message: string, data: Option<D>) | Bare(message: string)
  {
    /** The `status` member, if the object has one. */
    function Status(): Option<string> {
      if Envelope? then Some(status) else None
    }

    /** The `data` member, if the serialised object has one. */
    function Data(): Option<D> {
      if Envelope? then data else None
    }
  }

  const SuccessStatus: string := "success"
  const ErrorStatus: string := "error"

  /** getSuccessResponse(message, data): status "success"; `data` passes through untouched, absent if omitted. */
  function SuccessResponse<D>(message: string, data: Option<D>): (b: Body<D>)
    ensures b.Status() == Some(SuccessStatus) && b.message == message && b.Data() == data
  {
    Envelope(SuccessStatus, message, data)
  }

  /** getFailureResponse(message = ""): status "error", no `data` member. */
  function FailureResponse<D>(message: Option<string>): (b: Body<D>)
    ensures b.Status() == Some(ErrorStatus) && b.Data() == None
    ensures b.message == (if message.Some? then message.value else "")
  {
    Envelope(ErrorStatus, message.GetOr(""), None)
  }

  /** A success envelope and a failure envelope never coincide, and neither is a bare `{message}`. */
  lemma EnvelopesDistinct<D>(m1: string, d: Option<D>, m2: Option<string>, m3: string)
    ensures SuccessResponse(m1, d) != FailureResponse(m2)
    ensures SuccessResponse(m1, d) != Bare(m3) && FailureResponse<D>(m2) != Bare(m3)
  {
  }
}
