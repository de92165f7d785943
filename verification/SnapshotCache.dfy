/**
 The snapshot coordinator's index: which workflows are active, and the bounded
 list of finished ones whose outcome can still be asked for.
 */
module SnapshotCache {
  import SnapshotWorkflow

  type WorkflowState = SnapshotWorkflow.WorkflowState
  type WorkflowId = string

  const RETAINED_LIMIT := 256

  /** Active workflows are represented by their ids. */
  datatype Index = Index(active: set<WorkflowId>, states: map<WorkflowId, WorkflowState>, retained: seq<WorkflowId>)

  /** The list without the first occurrence of an id. */
  function Removed(ids: seq<WorkflowId>, id: WorkflowId): seq<WorkflowId> {
    if ids == [] then [] else if ids[0] == id then ids[1..] else [ids[0]] + Removed(ids[1..], id)
  }

  function AfterSubmit(x: Index, id: WorkflowId): Index {
    if id in x.active then x
    else Index(x.active + {id}, x.states[id := SnapshotWorkflow.PendingState], x.retained)
  }

  function AfterRunning(x: Index, id: WorkflowId): Index {
    x.(states := x.states[id := SnapshotWorkflow.RunningState])
  }

  /** The end of an active workflow: its outcome is retained, the oldest one may give way. */
  function AfterFinish(x: Index, id: WorkflowId, state: WorkflowState): Index {
    Evicted(x.active - {id}, x.states[id := state], Removed(x.retained, id) + [id])
  }

  function Evicted(active: set<WorkflowId>, states: map<WorkflowId, WorkflowState>, retained: seq<WorkflowId>): Index {
    if |retained| <= RETAINED_LIMIT then Index(active, states, retained)
    else Index(active, if retained[0] in active then states else states - {retained[0]}, retained[1..])
  }

  predicate Distinct(ids: seq<WorkflowId>) {
    forall i, j :: 0 <= i < j < |ids| ==> ids[i] != ids[j]
  }

  /** The known states are exactly the active workflows and the retained list, which has no duplicates. */
  ghost predicate Inv(x: Index) {
    && (forall id :: id in x.states <==> id in x.active || id in x.retained)
    && Distinct(x.retained)
    && |x.retained| <= RETAINED_LIMIT
  }

  lemma {:induction false} RemovedFacts(ids: seq<WorkflowId>, id: WorkflowId)
    requires Distinct(ids)
    ensures Distinct(Removed(ids, id))
    ensures forall other :: other in Removed(ids, id) <==> other in ids && other != id
    ensures |Removed(ids, id)| == |ids| - if id in ids then 1 else 0
  {
    if ids != [] {
      var more := ids[1..];
      FirstIsAlone(ids);
      if ids[0] != id {
        RemovedFacts(more, id);
        AloneInFront(ids[0], Removed(more, id));
      }
      hide Distinct, Removed;
    }
  }

  lemma FirstIsAlone(ids: seq<WorkflowId>)
    requires Distinct(ids) && ids != []
    ensures Distinct(ids[1..]) && ids[0] !in ids[1..]
    ensures forall other :: other in ids <==> other == ids[0] || other in ids[1..]
  {
    assert ids == [ids[0]] + ids[1..];
    assert forall j :: 0 <= j < |ids[1..]| ==> ids[1..][j] == ids[j + 1] != ids[0];
  }

  lemma AloneInFront(id: WorkflowId, left: seq<WorkflowId>)
    requires Distinct(left) && id !in left
    ensures Distinct([id] + left)
  {
    assert forall j :: 0 <= j < |left| ==> left[j] in left;
  }

  lemma {:induction false} RemovedFrom(ids: seq<WorkflowId>, i: nat, id: WorkflowId)
    requires i < |ids|
    ensures ids[..i] + Removed(ids[i..], id)
            == if ids[i] == id then ids[..i] + ids[i + 1..] else ids[..i + 1] + Removed(ids[i + 1..], id)
  {
    assert ids[i..][1..] == ids[i + 1..];
    assert ids[..i + 1] == ids[..i] + [ids[i]];
  }

  /** The loop that drops the id's earlier outcome from the list. */
  method Remove(ids: seq<WorkflowId>, id: WorkflowId) returns (left: seq<WorkflowId>)
    ensures left == Removed(ids, id)
  {
    var i := 0;
    while i < |ids|
      invariant 0 <= i <= |ids|
      invariant Removed(ids, id) == ids[..i] + Removed(ids[i..], id)
    {
      RemovedFrom(ids, i, id);
      if ids[i] == id {
        return ids[..i] + ids[i + 1..];
      }
      i := i + 1;
    }
    left := ids;
  }

  class Coordinator {
    var active: set<WorkflowId>
    var states: map<WorkflowId, WorkflowState>
    var retained: seq<WorkflowId>

    function View(): Index
      reads this
    {
      Index(active, states, retained)
    }

    constructor ()
      ensures View() == Index({}, map[], [])
    {
      active, states, retained := {}, map[], [];
    }

    method Submit(id: WorkflowId) returns (accepted: bool)
      modifies `active, `states
      ensures accepted <==> id !in old(active)
      ensures View() == AfterSubmit(old(View()), id)
    {
      if id in active {
        return false;
      }
      active := active + {id};
      states := states[id := SnapshotWorkflow.PendingState];
      accepted := true;
    }

    method MarkRunning(id: WorkflowId)
      modifies `states
      ensures View() == AfterRunning(old(View()), id)
    {
      states := states[id := SnapshotWorkflow.RunningState];
    }

    /** The terminal section of a workflow's run. */
    method Finish(id: WorkflowId, state: WorkflowState)
      modifies this
      ensures View() == AfterFinish(old(View()), id, state)
    {
      active := active - {id};
      states := states[id := state];
      retained := Remove(retained, id);
      retained := retained + [id];
      if |retained| > RETAINED_LIMIT {
        var oldest := retained[0];
        retained := retained[1..];
        if oldest !in active {
          states := states - {oldest};
        }
      }
    }
  }

  // ----- whole runs -----

  datatype Event = Submit(id: WorkflowId) | MarkRunning(id: WorkflowId) | Finish(id: WorkflowId, state: WorkflowState)

  /** Only the runner of an active workflow marks and finishes it. */
  predicate Enabled(x: Index, e: Event) {
    e.Submit? || e.id in x.active
  }

  function Apply(x: Index, e: Event): Index {
    match e
    case Submit(id) => AfterSubmit(x, id)
    case MarkRunning(id) => AfterRunning(x, id)
    case Finish(id, state) => AfterFinish(x, id, state)
  }

  predicate Reaches(x: Index, es: seq<Event>, y: Index)
    decreases |es|
  {
    if es == [] then x == y
    else Enabled(x, es[0]) && Reaches(Apply(x, es[0]), es[1..], y)
  }

  lemma StepInv(x: Index, e: Event)
    requires Inv(x) && Enabled(x, e)
    ensures Inv(Apply(x, e))
  {
    if e.Finish? { FinishInv(x, e.id, e.state); }
  }

  lemma FinishInv(x: Index, id: WorkflowId, state: WorkflowState)
    requires Inv(x)
    ensures Inv(AfterFinish(x, id, state))
  {
    RemovedFacts(x.retained, id);
    var ids := Removed(x.retained, id) + [id];
    assert Distinct(ids);
    assert forall other :: other in ids <==> other in x.retained || other == id;
    EvictedInv(x.active - {id}, x.states[id := state], ids);
  }

  lemma EvictedInv(active: set<WorkflowId>, states: map<WorkflowId, WorkflowState>, retained: seq<WorkflowId>)
    requires Distinct(retained) && |retained| <= RETAINED_LIMIT + 1
    requires forall id :: id in states <==> id in active || id in retained
    ensures Inv(Evicted(active, states, retained))
  {
    assert retained != [] ==> retained == [retained[0]] + retained[1..];
  }

  /** In every reachable state the index is exact, and the retained list has no duplicates and at most
      256 entries. */
  lemma {:induction false} IndexIsExact(x: Index, es: seq<Event>, y: Index)
    requires Inv(x) && Reaches(x, es, y)
    ensures Inv(y)
    decreases |es|
  {
    if es != [] {
      StepInv(x, es[0]);
      IndexIsExact(Apply(x, es[0]), es[1..], y);
    }
  }

  /** Finishing one workflow never touches the state of another active one, even if an older outcome of
      that id is evicted. */
  lemma EvictionSparesActive(x: Index, id: WorkflowId, state: WorkflowState, other: WorkflowId)
    requires Inv(x) && other in x.active && other != id
    ensures var y := AfterFinish(x, id, state); other in y.active && other in y.states && y.states[other] == x.states[other]
  {
  }

  function Finishes(es: seq<Event>): nat {
    if es == [] then 0 else (if es[0].Finish? then 1 else 0) + Finishes(es[1..])
  }

  /** The id is retained, with at most n ids behind it. */
  predicate Within(ids: seq<WorkflowId>, id: WorkflowId, n: nat) {
    exists i :: 0 <= i < |ids| && ids[i] == id && |ids| - 1 - i <= n
  }

  lemma {:induction false} RemovedWithin(ids: seq<WorkflowId>, gone: WorkflowId, id: WorkflowId, n: nat)
    requires Within(ids, id, n) && gone != id
    ensures Within(Removed(ids, gone), id, n)
  {
    var i :| 0 <= i < |ids| && ids[i] == id && |ids| - 1 - i <= n;
    if ids[0] == gone {
      assert ids[1..][i - 1] == id;
    } else if i == 0 {
      RemovedShorter(ids[1..], gone);
      assert Removed(ids, gone)[0] == id;
    } else {
      assert ids[1..][i - 1] == id;
      RemovedWithin(ids[1..], gone, id, n);
      var k :| 0 <= k < |Removed(ids[1..], gone)| && Removed(ids[1..], gone)[k] == id
               && |Removed(ids[1..], gone)| - 1 - k <= n;
      assert Removed(ids, gone)[k + 1] == id;
    }
  }

  lemma {:induction false} RemovedShorter(ids: seq<WorkflowId>, gone: WorkflowId)
    ensures |Removed(ids, gone)| <= |ids|
  {
    if ids != [] && ids[0] != gone { RemovedShorter(ids[1..], gone); }
  }

  lemma FinishWithin(x: Index, gone: WorkflowId, state: WorkflowState, id: WorkflowId, n: nat)
    requires Inv(x) && Within(x.retained, id, n) && n + 1 < RETAINED_LIMIT
    ensures Within(AfterFinish(x, gone, state).retained, id, n + 1)
  {
    var left := Removed(x.retained, gone);
    var ids := left + [gone];
    if gone == id {
      assert ids[|ids| - 1] == id;
      assert Within(ids, id, 0);
    } else {
      RemovedWithin(x.retained, gone, id, n);
      var i :| 0 <= i < |left| && left[i] == id && |left| - 1 - i <= n;
      assert ids[i] == id;
    }
    assert Within(ids, id, n + 1);
    if |ids| > RETAINED_LIMIT {
      var i :| 0 <= i < |ids| && ids[i] == id && |ids| - 1 - i <= n + 1;
      assert ids[1..][i - 1] == id;
    }
  }

  /** An outcome stays available for at least the next 255 finished workflows. */
  lemma {:induction false} OutcomeStaysAvailable(x: Index, es: seq<Event>, y: Index, id: WorkflowId, n: nat)
    requires Inv(x) && Reaches(x, es, y) && Within(x.retained, id, n) && n + Finishes(es) < RETAINED_LIMIT
    ensures id in y.states
    decreases |es|
  {
    if es == [] {
      var i :| 0 <= i < |x.retained| && x.retained[i] == id;
      assert id in x.retained;
    } else {
      StepInv(x, es[0]);
      if es[0].Finish? {
        FinishWithin(x, es[0].id, es[0].state, id, n);
        OutcomeStaysAvailable(Apply(x, es[0]), es[1..], y, id, n + 1);
      } else {
        OutcomeStaysAvailable(Apply(x, es[0]), es[1..], y, id, n);
      }
    }
  }

  /** A workflow that just finished is the newest of the list. */
  lemma JustFinished(x: Index, id: WorkflowId, state: WorkflowState)
    requires Inv(x)
    ensures var y := AfterFinish(x, id, state); Within(y.retained, id, 0) && id in y.states && y.states[id] == state
    ensures forall other :: other in AfterFinish(x, id, state).active <==> other in x.active && other != id
  {
    var ids := Removed(x.retained, id) + [id];
    assert ids[|ids| - 1] == id;
    var y := AfterFinish(x, id, state);
    assert y.retained[|y.retained| - 1] == id;
    RemovedFacts(x.retained, id);
  }

  /** A workflow that was not active is active and pending after its submission, whatever became of an earlier one with
      its id; one that was is left alone, as are all others. */
  lemma SubmittedIsPending(x: Index, id: WorkflowId, other: WorkflowId)
    requires Inv(x)
    ensures var y := AfterSubmit(x, id);
            && (id in x.active ==> y == x)
            && (id !in x.active ==> id in y.active && id in y.states && y.states[id].PendingState?)
            && (other != id ==> (other in y.active <==> other in x.active) && (other in y.states <==> other in x.states)
                                && (other in x.states ==> y.states[other] == x.states[other]))
  {
  }
}
