/**
 * The activated job as the workflow engine delivers it, and the job client
 * that carries the three job commands back.
 */
module Jobs {
  import opened Values

  /** A Java `int`. */
  type Int32 = x: int | -0x8000_0000 <= x < 0x8000_0000

  /** `x - 1` in Java `int` arithmetic, which wraps at the lower bound. */
  function Decrement(x: Int32): (r: Int32)
    ensures (x - 1 - r) % 0x1_0000_0000 == 0
  {
    if x == -0x8000_0000 then 0x7FFF_FFFF else x - 1
  }

  datatype Job = Job(
    key: int,
    processInstanceKey: int,
    retries: Int32,
    customHeaders: map<string, string>,
    variables: Config)

  /** A command sent for a job; the handler names the job by its key. */
  datatype Command =
    | Complete(jobKey: int, variables: Config)
    | Fail(jobKey: int, retries: Int32, errorMessage: string)
    | ThrowError(jobKey: int, errorCode: string, errorMessage: string)

  /** The job client, recording every command it is asked to send, in order. */
  class JobClient {
    var sent: seq<Command>

    constructor ()
      ensures sent == []
    {
      sent := [];
    }

    method SendComplete(jobKey: int, variables: Config)
      modifies this
      ensures sent == old(sent) + [Complete(jobKey, variables)]
    {
      sent := sent + [Complete(jobKey, variables)];
    }

    method SendFail(jobKey: int, retries: Int32, errorMessage: string)
      modifies this
      ensures sent == old(sent) + [Fail(jobKey, retries, errorMessage)]
    {
      sent := sent + [Fail(jobKey, retries, errorMessage)];
    }

    method SendThrowError(jobKey: int, errorCode: string, errorMessage: string)
      modifies this
      ensures sent == old(sent) + [ThrowError(jobKey, errorCode, errorMessage)]
    {
      sent := sent + [ThrowError(jobKey, errorCode, errorMessage)];
    }
  }
}
