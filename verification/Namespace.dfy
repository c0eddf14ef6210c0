/** Tool names of the form "{server}__{tool}". A char stands for one byte of the Go string. */
module Namespace {
  import opened Prelude

  const SEPARATOR := "__"

  datatype NameError = EmptyName | ContainsSeparator | TrailingUnderscore

  /** The position of the first separator, or None. */
  function Index(name: string): (r: Option<nat>)
    ensures r.Some? ==> SeparatorAt(name, r.value) && forall j: nat :: j < r.value ==> !SeparatorAt(name, j)
    ensures r.None? ==> forall j: nat :: !SeparatorAt(name, j)
  {
    if |name| < 2 then None
    else if name[..2] == SEPARATOR then Some(0)
    else
      var rest := Index(name[1..]);
      assert !SeparatorAt(name, 0);
      assert forall j: nat {:trigger SeparatorAt(name, j)} :: 0 < j ==>
        SeparatorAt(name, j) == SeparatorAt(name[1..], j - 1) by { ShiftSeparator(name); }
      if rest.None? then None else Some(rest.value + 1)
  }

  predicate SeparatorAt(name: string, i: nat) {
    i + 2 <= |name| && name[i] == '_' && name[i + 1] == '_'
  }

  lemma ShiftSeparator(name: string)
    requires |name| > 0
    ensures forall j: nat {:trigger SeparatorAt(name, j)} :: 0 < j ==> SeparatorAt(name, j) == SeparatorAt(name[1..], j - 1)
  {
  }

  /** None when the name may be used as a namespace prefix. */
  function ValidateServerName(name: string): Option<NameError> {
    if name == "" then Some(EmptyName)
    else if Index(name).Some? then Some(ContainsSeparator)
    else if Last(name) == '_' then Some(TrailingUnderscore)
    else None
  }

  predicate Valid(name: string) {
    ValidateServerName(name).None?
  }

  function PrefixTool(server: string, tool: string): string {
    server + SEPARATOR + tool
  }

  datatype Split = Split(server: string, tool: string, ok: bool)

  function SplitTool(name: string): Split {
    match Index(name)
    case None => Split("", name, false)
    case Some(i) => Split(name[..i], name[i + |SEPARATOR|..], true)
  }

  /** A valid server name is recovered together with whatever tool name follows it. */
  lemma SplitPrefix(server: string, tool: string)
    requires Valid(server)
    ensures SplitTool(PrefixTool(server, tool)) == Split(server, tool, true)
  {
    var name := PrefixTool(server, tool);
    var i := |server|;
    assert SeparatorAt(name, i);
    forall j: nat | j < i ensures !SeparatorAt(name, j) {
      assert name[j] == server[j];
      if j + 1 < i {
        assert name[j + 1] == server[j + 1];
        assert !SeparatorAt(server, j);
      }
    }
    assert name[..i] == server && name[i + 2..] == tool;
  }

  /** The empty name would survive the round trip, but is refused. */
  lemma EmptyNameRefused()
    ensures !Valid("") && forall tool :: SplitTool(PrefixTool("", tool)) == Split("", tool, true)
  {
    forall tool ensures SplitTool(PrefixTool("", tool)) == Split("", tool, true) {
      assert SeparatorAt(PrefixTool("", tool), 0);
    }
  }

  /** What a refusal says, in the order in which the reasons are looked at. */
  lemma RefusalTellsWhy(server: string)
    requires !Valid(server)
    ensures var error := ValidateServerName(server).value;
      && (error == EmptyName <==> server == "")
      && (error == ContainsSeparator <==> exists i: nat :: i + 1 < |server| && server[i] == server[i + 1] == '_')
      && (error == TrailingUnderscore ==> server != "" && server[|server| - 1] == '_')
  {
    forall i: nat ensures SeparatorAt(server, i) <==> i + 1 < |server| && server[i] == server[i + 1] == '_' {}
  }

  /** The codec is exact: validation accepts precisely the non-empty names every tool survives. */
  lemma RoundTripIffValid(server: string)
    ensures Valid(server) <==> server != "" && forall tool :: SplitTool(PrefixTool(server, tool)) == Split(server, tool, true)
  {
    if server == "" {
      EmptyNameRefused();
    } else if Valid(server) {
      forall tool ensures SplitTool(PrefixTool(server, tool)) == Split(server, tool, true) {
        SplitPrefix(server, tool);
      }
    } else {
      var name := PrefixTool(server, "");
      var i := if Index(server).Some? then Index(server).value else |server| - 1;
      assert SeparatorAt(name, i);
      assert |SplitTool(name).server| <= i < |server|;
      assert SplitTool(name) != Split(server, "", true);
    }
  }

  /** Whenever splitting succeeds, prefixing rebuilds the name, and the server part is empty or valid. */
  lemma PrefixSplit(name: string)
    requires SplitTool(name).ok
    ensures PrefixTool(SplitTool(name).server, SplitTool(name).tool) == name
    ensures SplitTool(name).server != "" <==> Valid(SplitTool(name).server)
  {
    var i := Index(name).value;
    var server := name[..i];
    assert SeparatorAt(name, i);
    assert name == name[..i] + name[i..i + 2] + name[i + 2..];
    forall j: nat ensures !SeparatorAt(server, j) {
      assert j < i ==> !SeparatorAt(name, j);
    }
    assert i > 0 ==> !SeparatorAt(name, i - 1);
  }

  /** Splitting fails exactly for a name without two adjacent underscores, and then gives the name back. */
  lemma SplitFails(name: string)
    ensures SplitTool(name).ok <==> exists i: nat :: i + 1 < |name| && name[i] == name[i + 1] == '_'
    ensures !SplitTool(name).ok ==> SplitTool(name).server == "" && SplitTool(name).tool == name
  {
    forall i: nat ensures SeparatorAt(name, i) <==> i + 1 < |name| && name[i] == name[i + 1] == '_' {}
  }

  /** Names of different servers, or of different tools of one server, never collide. */
  lemma PrefixInjective(s1: string, t1: string, s2: string, t2: string)
    requires Valid(s1) && Valid(s2)
    requires PrefixTool(s1, t1) == PrefixTool(s2, t2)
    ensures s1 == s2 && t1 == t2
  {
    SplitPrefix(s1, t1);
    SplitPrefix(s2, t2);
  }
}
