/** What has been sent to the client, at every moment of every run. */
module ExecInvariant {
  import opened Prelude
  import opened ExecTypes
  import opened ExecServer
  import opened ExecControl

  /** What has been sent, and how it relates to the bytes taken out of the pipe. */
  predicate SentOk(main: MainPc, sent: seq<ServerEvent>, taken: seq<byte>, started: bool, exited: Option<WaitStatus>) {
    match main
    case Reading => Streaming(sent) && Payload(sent) == taken
    case SendingOutput(chunk, _) => Streaming(sent) && Payload(sent) + chunk == taken && 0 < |chunk| <= BUFFER_SIZE
    case DrainKilling(lost) => Streaming(sent) && Payload(sent) + lost == taken
    case DrainWaiting(lost) => Streaming(sent) && Payload(sent) + lost == taken
    case Collecting => Streaming(sent) && Payload(sent) == taken
    case Checking(_) => Streaming(sent) && Payload(sent) == taken
    case SendingExited(_) => Streaming(sent) && Payload(sent) == taken
    case Returned(RetBadFirst) => sent == []
    case Returned(RetRecvError) => sent == []
    case Returned(RetSendError) => sent == [] || Streaming(sent)
    case Returned(RetViolation) => Streaming(sent) && Payload(sent) == taken
    case Returned(RetNil) =>
      if !started then |sent| == 1 && sent[0].Exited? && sent[0].exitCode == -1 && sent[0].errorMessage != ""
      else
        && |sent| > 1 && Streaming(sent[..|sent| - 1]) && Payload(sent) == taken
        && exited.Some? && Last(sent) == ExitEvent(exited.value)
    case SendingError(message) => sent == [] && message != ""
    case _ => sent == []
  }

  /** Every Output sent is one non-empty chunk of at most a buffer. */
  predicate ChunksOk(sent: seq<ServerEvent>) {
    forall k :: 0 <= k < |sent| && sent[k].Output? ==> 0 < |sent[k].data| <= BUFFER_SIZE
  }

  /** The bytes the read loop has taken out of the pipe. */
  function Taken(p: Process): seq<byte> {
    if p.read <= |p.written| then p.written[..p.read] else p.written
  }

  predicate SentInv(w: World) {
    SentOk(w.main, w.sent, Taken(w.p), w.p.started, w.p.exited) && ChunksOk(w.sent)
  }

  predicate Inv(w: World) {
    Control(w) && SentInv(w)
  }

  // -- The steps of the main goroutine --

  lemma LaunchKeepsSent(w: World, a: Answer)
    requires Inv(w) && BeforeStart(w.main) && MainNext(w, a).Some?
    ensures SentInv(MainNext(w, a).value)
  {
  }

  lemma StartedKeepsSent(w: World, ok: bool)
    requires Inv(w) && w.main.SendingStarted?
    ensures SentInv(StartedNext(w, ok))
  {
    PayloadSnoc([], Started("id"));
    assert w.sent + [Started("id")] == [] + [Started("id")];
  }

  lemma AbortKeepsSent(w: World, a: Answer)
    requires Inv(w) && (w.main.AbortKilling? || w.main.AbortWaiting?) && MainNext(w, a).Some?
    ensures SentInv(MainNext(w, a).value)
  {
  }

  lemma ReadSomeKeepsSent(w: World, n: nat, end: ReadEnd)
    requires Inv(w) && w.main.Reading? && ReadNext(w, n, end).Some? && n > 0
    ensures SentInv(ReadNext(w, n, end).value)
  {
    assert w.p.written[..w.p.read + n] == w.p.written[..w.p.read] + w.p.written[w.p.read..w.p.read + n];
  }

  lemma ReadNothingKeepsSent(w: World, end: ReadEnd)
    requires Inv(w) && w.main.Reading? && ReadNext(w, 0, end).Some?
    ensures SentInv(ReadNext(w, 0, end).value)
  {
    var w' := ReadNext(w, 0, end).value;
    assert Taken(w'.p) == Taken(w.p);
  }

  lemma ReadKeepsSent(w: World, n: nat, end: ReadEnd)
    requires Inv(w) && w.main.Reading? && ReadNext(w, n, end).Some?
    ensures SentInv(ReadNext(w, n, end).value)
  {
    if n > 0 {
      ReadSomeKeepsSent(w, n, end);
    } else {
      ReadNothingKeepsSent(w, end);
    }
  }

  lemma OutputKeepsSent(w: World, chunk: seq<byte>, end: ReadEnd, ok: bool)
    requires Inv(w) && w.main == SendingOutput(chunk, end)
    ensures SentInv(OutputNext(w, chunk, end, ok))
  {
    PayloadSnoc(w.sent, Output(chunk));
  }

  lemma ExitedKeepsSent(w: World, status: WaitStatus, ok: bool)
    requires Inv(w) && w.main == SendingExited(status)
    ensures SentInv(ExitedNext(w, status, ok))
  {
    var e := ExitEvent(status);
    PayloadSnoc(w.sent, e);
    assert (w.sent + [e])[..|w.sent|] == w.sent;
  }

  lemma EndKeepsSent(w: World, a: Answer)
    requires Inv(w) && MainNext(w, a).Some?
    requires w.main.DrainKilling? || w.main.DrainWaiting? || w.main.Collecting? || w.main.Checking?
    ensures SentInv(MainNext(w, a).value)
  {
  }

  lemma MainKeepsSent(w: World, a: Answer)
    requires Inv(w) && MainNext(w, a).Some?
    ensures SentInv(MainNext(w, a).value)
  {
    if BeforeStart(w.main) {
      LaunchKeepsSent(w, a);
    } else if w.main.AbortKilling? || w.main.AbortWaiting? {
      AbortKeepsSent(w, a);
    } else if w.main.DrainKilling? || w.main.DrainWaiting? || w.main.Collecting? || w.main.Checking? {
      EndKeepsSent(w, a);
    } else {
      StreamKeepsSent(w, a);
    }
  }

  lemma StreamKeepsSent(w: World, a: Answer)
    requires Inv(w) && MainNext(w, a).Some?
    requires w.main.SendingStarted? || w.main.Reading? || w.main.SendingOutput? || w.main.SendingExited?
    ensures SentInv(MainNext(w, a).value)
  {
    if w.main.SendingStarted? {
      StartedKeepsSent(w, a.ok);
    } else if w.main.SendingOutput? {
      OutputKeepsSent(w, w.main.chunk, w.main.end, a.ok);
    } else if w.main.SendingExited? {
      ExitedKeepsSent(w, w.main.status, a.ok);
    } else {
      ReadKeepsSent(w, a.n, a.end);
    }
  }

  /** A step of another goroutine or of the command sends nothing and takes nothing out of the pipe. */
  predicate SendsNothing(w: World, w': World, data: seq<byte>) {
    && w'.main == w.main && w'.sent == w.sent && w'.p.started == w.p.started && w'.p.read == w.p.read
    && (w'.p.written == w.p.written || w'.p.written == w.p.written + data)
    && (w.p.exited.Some? ==> w'.p.exited == w.p.exited)
  }

  lemma ReceiverSendsNothing(w: World, got: Option<Received>)
    requires ReceiverNext(w, got).Some?
    ensures SendsNothing(w, ReceiverNext(w, got).value, [])
  {
  }

  lemma OthersSendNothing(w: World, a: Action)
    requires !a.MainStep? && Step(w, a).Some?
    ensures SendsNothing(w, Step(w, a).value, if a.CommandWrites? then a.data else [])
  {
    if a.ReceiverStep? {
      ReceiverSendsNothing(w, a.got);
    }
  }

  lemma TakenStable(p: Process, p': Process, data: seq<byte>)
    requires p.read <= |p.written| && p'.read == p.read && (p'.written == p.written || p'.written == p.written + data)
    ensures Taken(p') == Taken(p)
  {
  }

  lemma SentStable(main: MainPc, sent: seq<ServerEvent>, taken: seq<byte>, started: bool, exited: Option<WaitStatus>, exited': Option<WaitStatus>)
    requires SentOk(main, sent, taken, started, exited) && (exited.Some? ==> exited' == exited)
    ensures SentOk(main, sent, taken, started, exited')
  {
  }

  lemma StepKeepsInv(w: World, a: Action)
    requires Inv(w) && Step(w, a).Some?
    ensures Inv(Step(w, a).value)
  {
    StepKeepsControl(w, a);
    if a.MainStep? {
      MainKeepsSent(w, a.answer);
    } else {
      var w' := Step(w, a).value;
      OthersSendNothing(w, a);
      TakenStable(w.p, w'.p, if a.CommandWrites? then a.data else []);
      SentStable(w.main, w.sent, Taken(w.p), w.p.started, w.p.exited, w'.p.exited);
    }
  }

  lemma ReachableInv(w: World)
    requires Reachable(w)
    ensures Inv(w)
  {
    forall v, a | Inv(v) && Step(v, a).Some? ensures Inv(Step(v, a).value) {
      StepKeepsInv(v, a);
    }
    InvariantReached(Step, Inv, INIT, w);
  }
}
