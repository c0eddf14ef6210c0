/** The command-line client's receive loop, and the whole path from the command's pipe to the client's stdout. */
module Client {
  import opened Prelude
  import opened ExecTypes
  import opened ExecServer
  import opened ExecInvariant
  import opened ExecSafety

  /** How the stream ends after the events that were delivered. */
  datatype StreamEnd = EndOfStream | StreamError

  datatype ExitPath = ByExitInfo | ByRecvError | FellThrough

  datatype Outcome = Outcome(stdout: seq<byte>, code: int, path: ExitPath, complaint: string)

  /** What the client has written and returned after the events and the end of the stream. */
  function ClientRun(written: seq<byte>, events: seq<ServerEvent>, end: StreamEnd): Outcome
    decreases |events|
  {
    if events == [] then
      match end
      case EndOfStream => Outcome(written, 0, FellThrough, "")
      case StreamError => Outcome(written, 1, ByRecvError, "recv")
    else match events[0]
      case Started(_) => ClientRun(written, events[1..], end)
      case Output(data) => ClientRun(written + data, events[1..], end)
      case Exited(code, message) => Outcome(written, code as int, ByExitInfo, message)
  }

  /** Lines 101-122. */
  method ReceiveLoop(events: seq<ServerEvent>, end: StreamEnd) returns (r: Outcome)
    ensures r == ClientRun([], events, end)
  {
    var stdout: seq<byte>, next := [], 0;
    while true
      invariant 0 <= next <= |events|
      invariant ClientRun(stdout, events[next..], end) == ClientRun([], events, end)
      decreases |events| - next
    {
      if next == |events| {
        if end == EndOfStream {
          break;
        }
        return Outcome(stdout, 1, ByRecvError, "recv");
      }
      var e := events[next];
      assert events[next..][1..] == events[next + 1..];
      next := next + 1;
      match e {
        case Started(_) =>
        case Output(data) => stdout := stdout + data;
        case Exited(code, message) => return Outcome(stdout, code as int, ByExitInfo, message);
      }
    }
    r := Outcome(stdout, 0, FellThrough, "");
  }

  lemma ClientSkipsOne(written: seq<byte>, e: ServerEvent, rest: seq<ServerEvent>, end: StreamEnd)
    requires !e.Exited?
    ensures ClientRun(written, [e] + rest, end) == ClientRun(written + if e.Output? then e.data else [], rest, end)
  {
    assert ([e] + rest)[1..] == rest;
    assert written + [] == written;
  }

  /** Reading on: events without an Exited only add their payload. */
  lemma {:induction false} ClientSkips(written: seq<byte>, events: seq<ServerEvent>, rest: seq<ServerEvent>, end: StreamEnd)
    requires forall k :: 0 <= k < |events| ==> !events[k].Exited?
    ensures ClientRun(written, events + rest, end) == ClientRun(written + Payload(events), rest, end)
    decreases |events|
  {
    if events == [] {
      assert events + rest == rest;
      assert written + Payload(events) == written;
    } else {
      var front, last := events[..|events| - 1], Last(events);
      var data := if last.Output? then last.data else [];
      assert events + rest == front + ([last] + rest);
      ClientSkips(written, front, [last] + rest, end);
      ClientSkipsOne(written + Payload(front), last, rest, end);
      assert written + Payload(front) + data == written + (Payload(front) + data);
    }
  }

  /** The first Exited decides, and nothing after it counts. */
  lemma ExitedDecides(events: seq<ServerEvent>, k: nat, end: StreamEnd)
    requires k < |events| && events[k].Exited? && forall i :: 0 <= i < k ==> !events[i].Exited?
    ensures ClientRun([], events, end)
         == Outcome(Payload(events[..k]), events[k].exitCode as int, ByExitInfo, events[k].errorMessage)
  {
    var rest := events[k..];
    assert events == events[..k] + rest && rest[0] == events[k];
    ClientSkips([], events[..k], rest, end);
    assert [] + Payload(events[..k]) == Payload(events[..k]);
  }

  /** Without an Exited the end of the stream decides: an error returns 1, a clean end falls through to return 0. */
  lemma EndDecides(events: seq<ServerEvent>, end: StreamEnd)
    requires forall i :: 0 <= i < |events| ==> !events[i].Exited?
    ensures var r := ClientRun([], events, end);
      && r.stdout == Payload(events)
      && (end == StreamError ==> r.path == ByRecvError && r.code == 1 && r.complaint != "")
      && (end == EndOfStream ==> r.path == FellThrough && r.code == 0 && r.complaint == "")
  {
    ClientSkips([], events, [], end);
    assert events + [] == events;
    assert [] + Payload(events) == Payload(events);
  }

  /**
   * A RunCommand that returns nil, delivered in full: the client has printed exactly the bytes the server read
   * from the pipe, returns the code of ExitInfo, and does not fall through to its final return.
   */
  lemma EndToEnd(w: World)
    requires Reachable(w) && w.main == Returned(RetNil)
    ensures var r := ClientRun([], w.sent, EndOfStream);
      && EndsWithExited(w.sent)
      && r.path == ByExitInfo
      && r.code == Last(w.sent).exitCode as int
      && r.complaint == Last(w.sent).errorMessage
      && (w.p.started ==>
          && w.p.read <= |w.p.written| && r.stdout == w.p.written[..w.p.read]
          && w.p.exited.Some? && Last(w.sent) == ExitEvent(w.p.exited.value))
      && (!w.p.started ==> r.stdout == [] && r.code == -1 && r.complaint != "")
  {
    NilIffExited(w);
    BytesConserved(w);
    ReachableInv(w);
    var front, last := w.sent[..|w.sent| - 1], Last(w.sent);
    assert w.sent == front + [last];
    PayloadSnoc(front, last);
    ClientSkips([], front, [last], EndOfStream);
    assert [] + Payload(front) == Payload(w.sent);
  }

  /** A RunCommand that fails: whatever part of its events arrives, the client reports the error and returns 1. */
  lemma FailureReachesClient(w: World, k: nat)
    requires Reachable(w) && w.main.Returned? && w.main.ret != RetNil && k <= |w.sent|
    ensures var r := ClientRun([], w.sent[..k], StreamError);
      r.path == ByRecvError && r.code == 1 && r.complaint != "" && r.stdout == Payload(w.sent[..k])
  {
    NilIffExited(w);
    ClientSkips([], w.sent[..k], [], StreamError);
    assert w.sent[..k] + [] == w.sent[..k];
    assert [] + Payload(w.sent[..k]) == Payload(w.sent[..k]);
  }
}
