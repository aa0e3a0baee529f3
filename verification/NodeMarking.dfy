/** Marking a node as terminating: how the node's condition list is rebuilt. */
module NodeMarking {

  const TERMINATING := "Terminating"

  datatype NodeCondition = NodeCondition(
    kind: string, status: string, heartbeat: int, transition: int, reason: string, message: string)

  function Mark(now: int): NodeCondition {
    NodeCondition(TERMINATING, "True", now, now, "TerminationRequested",
                  "The cloud provider has marked this instance for termination")
  }

  predicate IsTerminating(c: NodeCondition) {
    c.kind == TERMINATING
  }

  predicate HasTermination(conditions: seq<NodeCondition>) {
    exists i :: 0 <= i < |conditions| && IsTerminating(conditions[i])
  }

  function MarkEntry(c: NodeCondition, now: int): NodeCondition {
    if !IsTerminating(c) || c.status == "True" then c else Mark(now)
  }

  function MarkEntries(conditions: seq<NodeCondition>, now: int): (r: seq<NodeCondition>)
    ensures |r| == |conditions|
    ensures forall i :: 0 <= i < |r| ==> r[i] == MarkEntry(conditions[i], now)
  {
    if conditions == [] then [] else [MarkEntry(conditions[0], now)] + MarkEntries(conditions[1..], now)
  }

  function Marked(conditions: seq<NodeCondition>, now: int): seq<NodeCondition> {
    if HasTermination(conditions) then MarkEntries(conditions, now) else conditions + [Mark(now)]
  }

  /** A node object whose status conditions are rewritten in place. */
  class Node {
    var conditions: seq<NodeCondition>

    constructor (conditions: seq<NodeCondition>)
      ensures this.conditions == conditions
    {
      this.conditions := conditions;
    }

    method HasTerminationCondition() returns (has: bool)
      ensures has == HasTermination(conditions)
    {
      for i := 0 to |conditions|
        invariant forall j :: 0 <= j < i ==> !IsTerminating(conditions[j])
      {
        if conditions[i].kind == TERMINATING {
          assert IsTerminating(conditions[i]);
          return true;
        }
      }
      return false;
    }

    method AddTerminationCondition(now: int)
      modifies this
      ensures conditions == Marked(old(conditions), now)
    {
      var has := HasTerminationCondition();
      if !has {
        conditions := conditions + [Mark(now)];
        return;
      }
      var rebuilt: seq<NodeCondition> := [];
      for i := 0 to |conditions|
        invariant conditions == old(conditions) && |rebuilt| == i
        invariant forall j :: 0 <= j < i ==> rebuilt[j] == MarkEntry(conditions[j], now)
      {
        var condition := conditions[i];
        if condition.kind != TERMINATING {
          rebuilt := rebuilt + [condition];
        } else if condition.status == "True" {
          rebuilt := rebuilt + [condition];
        } else {
          rebuilt := rebuilt + [Mark(now)];
        }
      }
      assert rebuilt == MarkEntries(conditions, now);
      conditions := rebuilt;
    }
  }

  // ----- what marking means -----

  /** At least one Terminating entry, and all of them True. */
  ghost predicate SaysTerminating(conditions: seq<NodeCondition>) {
    HasTermination(conditions) && forall i :: 0 <= i < |conditions| && IsTerminating(conditions[i]) ==>
        conditions[i].status == "True"
  }

  ghost function Others(conditions: seq<NodeCondition>): seq<NodeCondition> {
    if conditions == [] then []
    else (if IsTerminating(conditions[0]) then [] else [conditions[0]]) + Others(conditions[1..])
  }

  lemma {:induction false} OthersConcat(a: seq<NodeCondition>, b: seq<NodeCondition>)
    ensures Others(a + b) == Others(a) + Others(b)
  {
    if a == [] {
      assert a + b == b;
    } else {
      assert (a + b)[1..] == a[1..] + b;
      OthersConcat(a[1..], b);
    }
  }

  lemma {:induction false} OthersUntouched(conditions: seq<NodeCondition>, now: int)
    ensures Others(MarkEntries(conditions, now)) == Others(conditions)
  {
    if conditions == [] {
    } else {
      OthersUntouched(conditions[1..], now);
      assert MarkEntries(conditions, now)[1..] == MarkEntries(conditions[1..], now);
    }
  }

  ghost predicate Keeps(before: seq<NodeCondition>, after: seq<NodeCondition>) {
    && |before| <= |after| <= |before| + 1
    && Others(after) == Others(before)
    && forall i :: 0 <= i < |before| && (!IsTerminating(before[i]) || before[i].status == "True") ==>
        after[i] == before[i]
  }

  /** The entry a mark writes, at that time. */
  ghost predicate IsFreshMark(c: NodeCondition, now: int) {
    && c.kind == "Terminating" && c.status == "True" && c.heartbeat == now && c.transition == now
    && c.reason == "TerminationRequested"
    && c.message == "The cloud provider has marked this instance for termination"
  }

  /** One mark: all Terminating entries True, True ones untouched, the rest in order, at most one entry more. */
  lemma MarkTheorem(conditions: seq<NodeCondition>, now: int)
    ensures SaysTerminating(Marked(conditions, now)) && Keeps(conditions, Marked(conditions, now))
  {
    var after := Marked(conditions, now);
    if HasTermination(conditions) {
      OthersUntouched(conditions, now);
      var i :| 0 <= i < |conditions| && IsTerminating(conditions[i]);
      assert IsTerminating(after[i]);
    } else {
      OthersConcat(conditions, [Mark(now)]);
      assert IsTerminating(after[|conditions|]);
    }
  }

  /**
   What a mark writes: a fresh entry in place of every Terminating one that was not True, and one more
   exactly if there was none.
   */
  lemma FreshMarks(conditions: seq<NodeCondition>, now: int)
    ensures var after := Marked(conditions, now);
      && (|after| == |conditions| <==> exists i :: 0 <= i < |conditions| && conditions[i].kind == "Terminating")
      && (forall i :: 0 <= i < |conditions| && conditions[i].kind == "Terminating" && conditions[i].status != "True" ==>
            IsFreshMark(after[i], now))
      && (|after| > |conditions| ==> IsFreshMark(after[|conditions|], now))
  {
    if exists i :: 0 <= i < |conditions| && conditions[i].kind == "Terminating" {
      var i :| 0 <= i < |conditions| && conditions[i].kind == "Terminating";
      assert IsTerminating(conditions[i]);
    }
  }

  /** A node that already says it is terminating is left exactly as it is. */
  lemma MarkIsIdempotent(conditions: seq<NodeCondition>, now: int)
    requires SaysTerminating(conditions)
    ensures Marked(conditions, now) == conditions
  {
  }

  function MarkedRepeatedly(conditions: seq<NodeCondition>, times: seq<int>): seq<NodeCondition>
    decreases |times|
  {
    if times == [] then conditions else MarkedRepeatedly(Marked(conditions, times[0]), times[1..])
  }

  /** Any number of marks does what the first one did. */
  lemma {:induction false} OnlyFirstMarkCounts(conditions: seq<NodeCondition>, times: seq<int>)
    requires times != []
    ensures MarkedRepeatedly(conditions, times) == Marked(conditions, times[0])
    ensures SaysTerminating(MarkedRepeatedly(conditions, times)) &&
        Keeps(conditions, MarkedRepeatedly(conditions, times))
    decreases |times|
  {
    MarkTheorem(conditions, times[0]);
    var rest := times[1..];
    if rest == [] {
    } else {
      OnlyFirstMarkCounts(Marked(conditions, times[0]), rest);
      MarkIsIdempotent(Marked(conditions, times[0]), rest[0]);
    }
  }
}
