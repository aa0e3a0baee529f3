/**
 The provider-status condition list and the rule that updates one entry of it.
 */
module Conditions {
  import opened Common

  datatype Condition = Condition(kind: string, status: string, reason: string, message: string, lastTransition: int)

  /** A requested condition, without the time, which the update itself supplies. */
  datatype Request = Request(kind: string, status: string, reason: string, message: string)

  ghost predicate UniqueKinds(conditions: seq<Condition>) {
    forall i, j :: 0 <= i < j < |conditions| ==> conditions[i].kind != conditions[j].kind
  }

  /** The first entry of a kind. */
  function Find(conditions: seq<Condition>, kind: string): (r: Option<nat>)
    ensures r.Some? ==> r.value < |conditions| && conditions[r.value].kind == kind
    ensures r.Some? ==> forall i :: 0 <= i < r.value ==> conditions[i].kind != kind
    ensures r.None? ==> forall i :: 0 <= i < |conditions| ==> conditions[i].kind != kind
  {
    FirstIndex(conditions, (c: Condition) => c.kind == kind)
  }

  predicate ShouldUpdate(c: Condition, r: Request) {
    c.status != r.status || c.reason != r.reason || c.message != r.message
  }

  function Updated(c: Condition, r: Request, now: int): Condition {
    if ShouldUpdate(c, r) then
      Condition(c.kind, r.status, r.reason, r.message, if c.status != r.status then now else c.lastTransition)
    else c
  }

  function Reconciled(conditions: seq<Condition>, r: Request, now: int): seq<Condition> {
    match Find(conditions, r.kind)
    case None => conditions + [Condition(r.kind, r.status, r.reason, r.message, now)]
    case Some(i) => conditions[i := Updated(conditions[i], r, now)]
  }

  method FindCondition(conditions: seq<Condition>, kind: string) returns (r: Option<nat>)
    ensures r == Find(conditions, kind)
  {
    for i := 0 to |conditions|
      invariant forall j :: 0 <= j < i ==> conditions[j].kind != kind
    {
      if conditions[i].kind == kind {
        return Some(i);
      }
    }
    return None;
  }

  /** The list held by a provider status, whose entries reconcileConditions changes through a pointer. */
  class ConditionList {
    var items: seq<Condition>

    constructor (initial: seq<Condition>)
      ensures items == initial
    {
      items := initial;
    }

    method Reconcile(r: Request, now: int)
      modifies this
      ensures items == Reconciled(old(items), r, now)
    {
      var at := FindCondition(items, r.kind);
      if at.None? {
        items := items + [Condition(r.kind, r.status, r.reason, r.message, now)];
      } else {
        var current := items[at.value];
        if ShouldUpdate(current, r) {
          if current.status != r.status {
            current := current.(lastTransition := now);
          }
          current := current.(status := r.status, reason := r.reason, message := r.message);
          items := items[at.value := current];
        }
      }
    }
  }

  // ----- histories of calls -----

  datatype Timed = Timed(request: Request, now: int)

  /** The list after a history of calls that starts from an empty list. */
  ghost function Replay(history: seq<Timed>): seq<Condition> {
    if history == [] then []
    else
      var last := history[|history| - 1];
      Reconciled(Replay(history[..|history| - 1]), last.request, last.now)
  }

  /** Call l is the last one of its kind. */
  ghost predicate IsLast(history: seq<Timed>, kind: string, l: int) {
    && 0 <= l < |history|
    && history[l].request.kind == kind
    && forall j :: l < j < |history| ==> history[j].request.kind != kind
  }

  /** From call i on, every call of the kind asks for one status. */
  ghost predicate Steady(history: seq<Timed>, kind: string, i: int) {
    && 0 <= i < |history|
    && history[i].request.kind == kind
    && forall j :: i <= j < |history| && history[j].request.kind == kind ==>
         history[j].request.status == history[i].request.status
  }

  /** Call i opens the trailing stretch of equal status of its kind. */
  ghost predicate OpensStretch(history: seq<Timed>, kind: string, i: int) {
    Steady(history, kind, i) && forall j :: 0 <= j < i ==> !Steady(history, kind, j)
  }

  ghost predicate Asks(r: Request, c: Condition) {
    r == Request(c.kind, c.status, c.reason, c.message)
  }

  /** An entry holds the last requested content, and the time at which its status last changed. */
  ghost predicate Explained(history: seq<Timed>, c: Condition) {
    && (exists l :: IsLast(history, c.kind, l) && Asks(history[l].request, c))
    && (exists i :: OpensStretch(history, c.kind, i) && history[i].now == c.lastTransition)
  }

  lemma SteadyAppend(history: seq<Timed>, u: Timed, kind: string, i: nat)
    requires i < |history|
    ensures Steady(history + [u], kind, i) <==>
            && Steady(history, kind, i)
            && (u.request.kind == kind ==> u.request.status == history[i].request.status)
  {
    var h := history + [u];
    if Steady(h, kind, i) {
      forall j | i <= j < |history| && history[j].request.kind == kind
        ensures history[j].request.status == history[i].request.status
      {
        assert h[j] == history[j];
      }
      assert h[|history|] == u;
    }
  }

  /** A call that agrees with the current stretch of its kind, or is of another kind, does not move its opening. */
  lemma StretchContinues(history: seq<Timed>, u: Timed, kind: string, i: nat)
    requires OpensStretch(history, kind, i)
    requires u.request.kind == kind ==> u.request.status == history[i].request.status
    ensures OpensStretch(history + [u], kind, i)
  {
    forall j: nat | j <= i {
      SteadyAppend(history, u, kind, j);
    }
  }

  lemma StretchOpens(history: seq<Timed>, u: Timed, l: nat)
    requires l < |history| && history[l].request.kind == u.request.kind
    requires IsLast(history, u.request.kind, l) && history[l].request.status != u.request.status
    ensures OpensStretch(history + [u], u.request.kind, |history|)
  {
    forall j: nat | j < |history|
      ensures !Steady(history + [u], u.request.kind, j)
    {
      SteadyAppend(history, u, u.request.kind, j);
    }
  }

  lemma OtherKindKeepsExplanation(history: seq<Timed>, u: Timed, c: Condition)
    requires Explained(history, c) && u.request.kind != c.kind
    ensures Explained(history + [u], c)
  {
    var h := history + [u];
    var l :| IsLast(history, c.kind, l) && Asks(history[l].request, c);
    assert IsLast(h, c.kind, l) && h[l] == history[l];
    var i :| OpensStretch(history, c.kind, i) && history[i].now == c.lastTransition;
    StretchContinues(history, u, c.kind, i);
    assert h[i] == history[i];
  }

  lemma FirstOfKindIsExplained(history: seq<Timed>, u: Timed)
    requires forall j :: 0 <= j < |history| ==> history[j].request.kind != u.request.kind
    ensures Explained(history + [u],
                      Condition(u.request.kind, u.request.status, u.request.reason, u.request.message, u.now))
  {
    var h := history + [u];
    assert IsLast(h, u.request.kind, |history|);
    assert OpensStretch(h, u.request.kind, |history|);
  }

  lemma UpdatedIsExplained(history: seq<Timed>, u: Timed, c: Condition)
    requires Explained(history, c) && u.request.kind == c.kind
    ensures Explained(history + [u], Updated(c, u.request, u.now))
  {
    var h := history + [u];
    var c' := Updated(c, u.request, u.now);
    assert IsLast(h, c.kind, |history|) && Asks(h[|history|].request, c');
    var l :| IsLast(history, c.kind, l) && Asks(history[l].request, c);
    var i :| OpensStretch(history, c.kind, i) && history[i].now == c.lastTransition;
    if c.status == u.request.status {
      StretchContinues(history, u, c.kind, i);
      assert h[i] == history[i];
    } else {
      StretchOpens(history, u, l);
      assert h[|history|] == u;
    }
  }

  lemma EntriesStayExplained(history: seq<Timed>, conditions: seq<Condition>, u: Timed, k: nat)
    requires forall k :: 0 <= k < |conditions| ==> Explained(history, conditions[k])
    requires Covers(history, conditions) && UniqueKinds(conditions)
    requires k < |Reconciled(conditions, u.request, u.now)|
    ensures Explained(history + [u], Reconciled(conditions, u.request, u.now)[k])
  {
    if k < |conditions| && conditions[k].kind != u.request.kind {
      OtherKindKeepsExplanation(history, u, conditions[k]);
    } else if k < |conditions| {
      UpdatedIsExplained(history, u, conditions[k]);
    } else {
      FirstOfKindIsExplained(history, u);
    }
  }

  ghost predicate Covers(history: seq<Timed>, conditions: seq<Condition>) {
    forall j :: 0 <= j < |history| ==> Find(conditions, history[j].request.kind).Some?
  }

  ghost predicate Faithful(history: seq<Timed>, conditions: seq<Condition>) {
    && UniqueKinds(conditions)
    && (forall k :: 0 <= k < |conditions| ==> Explained(history, conditions[k]))
    && Covers(history, conditions)
  }

  lemma StepCovers(history: seq<Timed>, conditions: seq<Condition>, u: Timed)
    requires Covers(history, conditions)
    ensures Covers(history + [u], Reconciled(conditions, u.request, u.now))
  {
    var h, after := history + [u], Reconciled(conditions, u.request, u.now);
    forall j | 0 <= j < |h|
      ensures Find(after, h[j].request.kind).Some?
    {
      var at := Find(conditions, h[j].request.kind);
      assert after[if at.Some? then at.value else |conditions|].kind == h[j].request.kind;
    }
  }

  lemma StepIsFaithful(history: seq<Timed>, conditions: seq<Condition>, u: Timed)
    requires Faithful(history, conditions)
    ensures Faithful(history + [u], Reconciled(conditions, u.request, u.now))
  {
    var after := Reconciled(conditions, u.request, u.now);
    assert UniqueKinds(after);
    StepCovers(history, conditions, u);
    forall k: nat | k < |after|
      ensures Explained(history + [u], after[k])
    {
      EntriesStayExplained(history, conditions, u, k);
    }
  }

  /**
   For every history from an empty list: one entry per requested kind, holding the last
   requested status, reason and message, with the transition time of the earliest call in
   that kind's trailing stretch of equal status.
   */
  lemma {:induction false} HistoryTheorem(history: seq<Timed>)
    ensures Faithful(history, Replay(history))
  {
    if history == [] {
    } else {
      var before := history[..|history| - 1];
      HistoryTheorem(before);
      assert history == before + [history[|history| - 1]];
      StepIsFaithful(before, Replay(before), history[|history| - 1]);
    }
  }
}
