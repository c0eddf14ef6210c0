/** The messages of the ExecService and what a finished command is reported as. */
module ExecTypes {
  import opened Prelude

  newtype byte = x: int | 0 <= x < 256
  newtype int32 = x: int | -0x8000_0000 <= x < 0x8000_0000

  /** The Go conversion int32(n). */
  function ToInt32(n: int): int32 {
    var low := n % 0x1_0000_0000;
    if low < 0x8000_0000 then low as int32 else (low - 0x1_0000_0000) as int32
  }

  datatype ServerEvent = Started(commandId: string) | Output(data: seq<byte>) | Exited(exitCode: int32, errorMessage: string)

  /** TerminateCommand; gracePeriod in nanoseconds, absent or of either sign. */
  datatype Terminate = Terminate(force: bool, gracePeriod: Option<int>)

  datatype ClientEvent = TerminateEvent(t: Terminate) | OtherEvent

  /** What cmd.Wait returned: no error, an ExitError, or some other error. */
  datatype WaitStatus = Clean | ExitError(code: int) | WaitFailed(message: string)

  function ExitEvent(status: WaitStatus): ServerEvent {
    match status
    case Clean => Exited(0, "")
    case ExitError(code) => Exited(ToInt32(code), "")
    case WaitFailed(message) => Exited(-1, message)
  }

  /** Lines 184-194: the two variables and the conditionals that set them. */
  method DescribeExit(status: WaitStatus) returns (exitCode: int32, errMsg: string)
    ensures Exited(exitCode, errMsg) == ExitEvent(status)
    ensures status.Clean? ==> exitCode == 0
    ensures errMsg != "" ==> exitCode == -1
  {
    exitCode, errMsg := 0, "";
    if status != Clean {
      if status.ExitError? {
        exitCode := ToInt32(status.code);
      } else {
        exitCode := -1;
        errMsg := status.message;
      }
    }
  }

  /** A normal exit is reported as 0, the exit codes of an operating system unchanged, any other failure as -1. */
  lemma ExitEventReports(status: WaitStatus)
    requires status.ExitError? ==> -1 <= status.code < 256
    ensures ExitEvent(status).exitCode as int == match status case Clean => 0 case ExitError(code) => code case WaitFailed(_) => -1
    ensures ExitEvent(status).errorMessage == if status.WaitFailed? then status.message else ""
  {
  }

  /** The Output payloads, joined in order. */
  function Payload(events: seq<ServerEvent>): seq<byte> {
    if events == [] then []
    else Payload(events[..|events| - 1]) + if Last(events).Output? then Last(events).data else []
  }

  /** Started first, then only Output. */
  predicate Streaming(events: seq<ServerEvent>) {
    events != [] && events[0].Started? && forall k :: 1 <= k < |events| ==> events[k].Output?
  }

  lemma PayloadSnoc(events: seq<ServerEvent>, e: ServerEvent)
    ensures Payload(events + [e]) == Payload(events) + if e.Output? then e.data else []
  {
    assert (events + [e])[..|events|] == events;
  }
}
