/** The read loop of RunCommand with its reused buffer, lines 167-182. */
module OutputLoop {
  import opened Prelude
  import opened ExecTypes
  import opened ExecServer

  /** One return of pr.Read: the bytes it put at the front of the buffer, and the error. */
  datatype ReadReply = ReadReply(data: seq<byte>, end: ReadEnd)

  /** The replies the loop gets to see: up to the first error. */
  function Seen(replies: seq<ReadReply>): seq<ReadReply> {
    if replies == [] then []
    else if replies[0].end != NoError then [replies[0]]
    else [replies[0]] + Seen(replies[1..])
  }

  function Bytes(replies: seq<ReadReply>): seq<byte> {
    if replies == [] then [] else Bytes(replies[..|replies| - 1]) + Last(replies).data
  }

  function Joined(payloads: seq<seq<byte>>): seq<byte> {
    if payloads == [] then [] else Joined(payloads[..|payloads| - 1]) + Last(payloads)
  }

  lemma BytesSnoc(replies: seq<ReadReply>, r: ReadReply)
    ensures Bytes(replies + [r]) == Bytes(replies) + r.data
  {
    assert (replies + [r])[..|replies|] == replies;
  }

  lemma JoinedSnoc(payloads: seq<seq<byte>>, p: seq<byte>)
    ensures Joined(payloads + [p]) == Joined(payloads) + p
  {
    assert (payloads + [p])[..|payloads|] == payloads;
  }

  /** What the loop sees of the replies from next on, given that it has gone that far. */
  lemma {:induction false} SeenFrom(replies: seq<ReadReply>, next: nat)
    requires next < |replies| && forall i :: 0 <= i < next ==> replies[i].end == NoError
    ensures replies[next].end != NoError || next + 1 == |replies| ==> Seen(replies) == replies[..next + 1]
    decreases next
  {
    if next > 0 {
      SeenFrom(replies[1..], next - 1);
      assert [replies[0]] + replies[1..][..next] == replies[..next + 1];
    } else if replies[0].end == NoError {
      assert replies[1..] == [] || next + 1 < |replies|;
    }
  }

  /** What has been sent of the replies before next, none of which was an error. */
  predicate SoFar(replies: seq<ReadReply>, next: nat, payloads: seq<seq<byte>>) {
    && next <= |replies| && (forall i :: 0 <= i < next ==> replies[i].end == NoError)
    && Chunks(payloads) && Joined(payloads) == Bytes(replies[..next])
  }

  predicate Chunks(payloads: seq<seq<byte>>) {
    forall k :: 0 <= k < |payloads| ==> 0 < |payloads[k]| <= 4096
  }

  /** All that the loop gets to see has been sent. */
  predicate Finished(replies: seq<ReadReply>, payloads: seq<seq<byte>>) {
    Chunks(payloads) && Joined(payloads) == Bytes(Seen(replies))
  }

  /** One more reply, and its payload if it has one. */
  lemma OneMore(replies: seq<ReadReply>, next: nat, payloads: seq<seq<byte>>)
    requires next < |replies| && SoFar(replies, next, payloads) && |replies[next].data| <= BUFFER_SIZE
    ensures var data := replies[next].data;
      var payloads' := if data == [] then payloads else payloads + [data];
      && (replies[next].end == NoError ==> SoFar(replies, next + 1, payloads'))
      && (replies[next].end != NoError || next + 1 == |replies| ==> Finished(replies, payloads'))
  {
    assert replies[..next] + [replies[next]] == replies[..next + 1];
    BytesSnoc(replies[..next], replies[next]);
    JoinedSnoc(payloads, replies[next].data);
    SeenFrom(replies, next);
  }

  /** pr.Read: puts the data at the front of the buffer. */
  method Read(buf: array<byte>, data: seq<byte>)
    requires |data| <= buf.Length
    modifies buf
    ensures buf[..|data|] == data
  {
    forall i | 0 <= i < |data| {
      buf[i] := data[i];
    }
  }

  /** append([]byte(nil), buf[:n]...). */
  method Copied(buf: array<byte>, n: nat) returns (copy: array<byte>)
    requires n <= buf.Length
    ensures fresh(copy) && copy[..] == buf[..n]
  {
    copy := new byte[n];
    forall i | 0 <= i < n {
      copy[i] := buf[i];
    }
  }

  /** The memory of every payload sent holds that payload. */
  predicate Hold(sent: seq<array<byte>>, payloads: seq<seq<byte>>)
    reads sent
  {
    |sent| == |payloads| && forall k :: 0 <= k < |sent| ==> sent[k][..] == payloads[k]
  }

  lemma HoldMore(sent: seq<array<byte>>, payloads: seq<seq<byte>>, copy: array<byte>, data: seq<byte>)
    requires Hold(sent, payloads) && copy[..] == data
    ensures Hold(sent + [copy], payloads + [data])
  {
  }

  /**
   * sent holds the payload of every Output, as the memory it occupies when the loop is over: each was copied out
   * of buf before buf was overwritten. The replies stand for successive reads, their end for one that blocks.
   */
  method PumpOutput(replies: seq<ReadReply>) returns (sent: seq<array<byte>>, ghost payloads: seq<seq<byte>>)
    requires forall i :: 0 <= i < |replies| ==> |replies[i].data| <= 4096
    ensures (forall a :: a in sent ==> fresh(a)) && Hold(sent, payloads)
    ensures Finished(replies, payloads)
  {
    var buf := new byte[BUFFER_SIZE];
    sent, payloads := [], [];
    var next := 0;
    while next < |replies|
      invariant 0 <= next && SoFar(replies, next, payloads)
      invariant buf !in sent && (forall a :: a in sent ==> fresh(a)) && Hold(sent, payloads)
      invariant next == |replies| ==> Finished(replies, payloads)
      invariant fresh(buf) && buf.Length == BUFFER_SIZE
    {
      var reply := replies[next];
      var n := |reply.data|;
      Read(buf, reply.data);
      OneMore(replies, next, payloads);
      if n > 0 {
        var copy := Copied(buf, n);
        HoldMore(sent, payloads, copy, reply.data);
        sent, payloads := sent + [copy], payloads + [reply.data];
      }
      if reply.end != NoError {
        return;
      }
      next := next + 1;
    }
  }
}
