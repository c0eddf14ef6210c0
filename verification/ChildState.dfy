/**
 * One child MCP server: the fields guarded by its mutex, and the critical sections of Start, Stop and monitor.
 * The session, process, context and done-channel a Start call creates all carry the number of that call.
 */
module ChildState {
  import opened Prelude

  datatype Tool = Tool(name: string, description: string, inputSchema: Option<string>)

  datatype Status = New | Starting | Running | Stopped | Crashed

  /** The order in which a status may change; Stopped and Crashed are both final. */
  predicate NoLater(a: Status, b: Status) {
    a == b || a == New || (a == Starting && b != New) || (a == Running && (b == Stopped || b == Crashed))
  }

  type CallId = nat

  datatype Fields = Fields(
    status: Status,
    tools: seq<Tool>,
    session: Option<CallId>,
    process: Option<CallId>,
    stopCancel: Option<CallId>,
    startDone: Option<CallId>)

  const FRESH := Fields(New, [], None, None, None, None)

  // -- The critical sections, as functions of the fields --

  /** Lines 101-111; None when the call is turned away. */
  function EnterStart(f: Fields, call: CallId): Option<Fields> {
    if f.status != New then None
    else Some(f.(status := Starting, stopCancel := Some(call), startDone := Some(call)))
  }

  /** Lines 163-172; None when the child was stopped meanwhile. */
  function Publish(f: Fields, call: CallId): Option<Fields> {
    if f.status != Starting then None
    else Some(f.(session := Some(call), process := Some(call)))
  }

  /** Lines 177-182: discovery failed. */
  function Abandon(f: Fields, call: CallId): Fields {
    if f.session == Some(call) then f.(session := None, process := None) else f
  }

  /** Lines 187-195; None when the child was stopped meanwhile. */
  function Commit(f: Fields, tools: seq<Tool>): Option<Fields> {
    if f.status != Starting then None
    else Some(f.(tools := tools, status := Running))
  }

  /** Lines 115-126, except for closing the channel startDone. */
  function LeaveStart(f: Fields, failed: bool, cancelled: bool): Fields {
    f.(status := if failed && f.status == Starting && !cancelled then Crashed else f.status, stopCancel := None)
  }

  /** Lines 254-266; the caller keeps what the fields held before. */
  function EnterStop(f: Fields): Fields {
    f.(session := None, process := None, stopCancel := None, status := if f.status != Crashed then Stopped else Crashed)
  }

  /** Lines 277-282. */
  function TakeSession(f: Fields): Fields {
    f.(session := None, process := None)
  }

  /** Lines 232-238, with the flag wasCrash. */
  function NoteExit(f: Fields): (Fields, bool) {
    if f.status == Running then (f.(status := Crashed), true) else (f, false)
  }

  // -- The same critical sections, updating the fields in place --

  class Child {
    var status: Status
    var tools: seq<Tool>
    var session: Option<CallId>
    var process: Option<CallId>
    var stopCancel: Option<CallId>
    var startDone: Option<CallId>

    function View(): Fields
      reads this
    {
      Fields(status, tools, session, process, stopCancel, startDone)
    }

    constructor ()
      ensures View() == FRESH
      ensures status == New && tools == [] && session == process == stopCancel == startDone == None
    {
      status, tools, session, process, stopCancel, startDone := New, [], None, None, None, None;
    }

    method StartEntry(call: CallId) returns (refused: Option<Status>)
      modifies this
      ensures refused.Some? <==> EnterStart(old(View()), call).None?
      ensures refused.Some? ==> refused.value == old(status) && View() == old(View())
      ensures refused.None? ==> View() == EnterStart(old(View()), call).value
      ensures refused.Some? <==> old(status) != New
      ensures refused.None? ==> View() == old(View()).(status := Starting, stopCancel := Some(call), startDone := Some(call))
    {
      if status != New {
        return Some(status);
      }
      status := Starting;
      stopCancel := Some(call);
      startDone := Some(call);
      refused := None;
    }

    method PublishSession(call: CallId) returns (ok: bool)
      modifies this
      ensures ok <==> Publish(old(View()), call).Some?
      ensures View() == if ok then Publish(old(View()), call).value else old(View())
      ensures ok <==> old(status) == Starting
      ensures ok ==> session == process == Some(call) && View() == old(View()).(session := session, process := process)
    {
      if status != Starting {
        return false;
      }
      session := Some(call);
      process := Some(call);
      ok := true;
    }

    method AbandonSession(call: CallId)
      modifies this
      ensures View() == Abandon(old(View()), call)
      ensures old(session) == Some(call) ==> View() == old(View()).(session := None, process := None)
      ensures old(session) != Some(call) ==> View() == old(View())
    {
      if session == Some(call) {
        session := None;
        process := None;
      }
    }

    method CommitTools(found: seq<Tool>) returns (ok: bool)
      modifies this
      ensures ok <==> Commit(old(View()), found).Some?
      ensures View() == if ok then Commit(old(View()), found).value else old(View())
      ensures ok <==> old(status) == Starting
      ensures ok ==> View() == old(View()).(tools := found, status := Running)
    {
      if status != Starting {
        return false;
      }
      tools := found;
      status := Running;
      ok := true;
    }

    method StartExit(failed: bool, cancelled: bool)
      modifies this
      ensures View() == LeaveStart(old(View()), failed, cancelled)
      ensures stopCancel == None && View() == old(View()).(stopCancel := None, status := status)
      ensures status != old(status) <==> failed && !cancelled && old(status) == Starting
      ensures status != old(status) ==> status == Crashed
    {
      if failed {
        if status == Starting && !cancelled {
          status := Crashed;
        }
      }
      stopCancel := None;
    }

    method StopEntry() returns (heldSession: Option<CallId>, heldProcess: Option<CallId>,
                                heldCancel: Option<CallId>, heldDone: Option<CallId>)
      modifies this
      ensures View() == EnterStop(old(View()))
      ensures session == process == stopCancel == None && startDone == old(startDone) && tools == old(tools)
      ensures status == if old(status) == Crashed then Crashed else Stopped
      ensures heldSession == old(session) && heldProcess == old(process)
      ensures heldCancel == old(stopCancel) && heldDone == old(startDone)
    {
      heldSession, heldProcess, heldCancel, heldDone := session, process, stopCancel, startDone;
      session, process, stopCancel := None, None, None;
      if status != Crashed {
        status := Stopped;
      }
    }

    method StopReread() returns (heldSession: Option<CallId>, heldProcess: Option<CallId>)
      modifies this
      ensures View() == TakeSession(old(View()))
      ensures session == process == None && View() == old(View()).(session := None, process := None)
      ensures heldSession == old(session) && heldProcess == old(process)
    {
      heldSession, heldProcess := session, process;
      session, process := None, None;
    }

    method MonitorExit() returns (wasCrash: bool)
      modifies this
      ensures (View(), wasCrash) == NoteExit(old(View()))
      ensures wasCrash <==> old(status) == Running
      ensures View() == if wasCrash then old(View()).(status := Crashed) else old(View())
    {
      wasCrash := status == Running;
      if wasCrash {
        status := Crashed;
      }
    }
  }

  // -- Tool discovery --

  datatype ListReply = Page(tools: seq<Tool>, nextCursor: string) | ListFailed

  datatype Discovery = Found(tools: seq<Tool>) | DiscoveryError | NoReply

  /** A reply after which discoverTools asks again. */
  predicate Continues(reply: ListReply) {
    reply.Page? && reply.nextCursor != ""
  }

  function AllTools(replies: seq<ListReply>): seq<Tool>
    requires forall i :: 0 <= i < |replies| ==> replies[i].Page?
  {
    if replies == [] then [] else AllTools(replies[..|replies| - 1]) + Last(replies).tools
  }

  /**
   * discoverTools, lines 204-219. replies are the answers ListTools would give to successive calls; asked are
   * the cursors sent. NoReply stands for a call that never returns.
   */
  method DiscoverTools(replies: seq<ListReply>) returns (r: Discovery, asked: seq<string>)
    ensures r.NoReply? <==> forall i :: 0 <= i < |replies| ==> Continues(replies[i])
    ensures !r.NoReply? ==> 0 < |asked| <= |replies| && !Continues(replies[|asked| - 1])
    ensures forall i :: 0 <= i < |asked| - 1 ==> i < |replies| && Continues(replies[i])
    ensures forall i :: 0 <= i < |asked| ==> i <= |replies| && asked[i] == if i == 0 || !replies[i - 1].Page? then "" else replies[i - 1].nextCursor
    ensures r.DiscoveryError? <==> !r.NoReply? && replies[|asked| - 1].ListFailed?
    ensures r.Found? ==> (forall i :: 0 <= i < |asked| ==> replies[i].Page?) && r.tools == AllTools(replies[..|asked|])
  {
    var all: seq<Tool>, cursor, n := [], "", 0;
    asked := [];
    while true
      invariant 0 <= n <= |replies| && |asked| == n
      invariant forall i :: 0 <= i < n ==> Continues(replies[i])
      invariant forall i :: 0 <= i < n ==> asked[i] == if i == 0 then "" else replies[i - 1].nextCursor
      invariant cursor == if n == 0 then "" else replies[n - 1].nextCursor
      invariant all == AllTools(replies[..n])
      decreases |replies| - n
    {
      asked := asked + [cursor];
      if n == |replies| {
        return NoReply, asked;
      }
      var reply := replies[n];
      n := n + 1;
      if reply.ListFailed? {
        return DiscoveryError, asked;
      }
      assert replies[..n][..n - 1] == replies[..n - 1];
      all := all + reply.tools;
      if reply.nextCursor == "" {
        break;
      }
      cursor := reply.nextCursor;
    }
    r := Found(all);
  }
}
