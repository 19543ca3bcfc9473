/** Research runs and progress plans as the audit replay rebuilds them. */
module ProgressReplay {
  import opened Common
  import opened Ordering
  import opened ReplayTables

  datatype Run = Run(id: Id, governing: Digest, body: string)

  datatype RunEvent = RunEvent(id: Id, runId: Id, governing: Digest, body: string)

  datatype Subtask = Subtask(id: Id, planId: Id, body: string)

  datatype Plan = Plan(id: Id, runId: Id, version: nat, subtasks: seq<Subtask>, governing: Digest, body: string)

  datatype ProgressEvent = ProgressEvent(id: Id, runId: Id, planId: Id, subtaskId: Id, at: Time, governing: Digest, body: string)

  datatype Progress = Progress(
    runs: map<Id, Run>, runEvents: map<Id, RunEvent>, runHeads: map<Id, Id>,
    plans: map<Id, Plan>, subtasks: map<Id, Subtask>, events: map<Id, ProgressEvent>, heads: map<Id, (Id, Id)>)

  const NO_PROGRESS := Progress(map[], map[], map[], map[], map[], map[], map[])

  // ---- runs ----

  function AddRun(p: Progress, governing: Digest, run: Run): Result<Progress>
  {
    if run.governing != governing || run.id in p.runs then Raised else Ok(p.(runs := p.runs[run.id := run]))
  }

  function AddRunEvent(p: Progress, governing: Digest, e: RunEvent): Result<Progress>
  {
    if e.governing != governing || e.runId !in p.runs || e.id in p.runEvents then Raised
    else Ok(p.(runEvents := p.runEvents[e.id := e], runHeads := p.runHeads[e.runId := e.id]))
  }

  // ---- plans ----

  /** `version == max(prior versions of the run, default=0) + 1`. */
  predicate NextVersion(plans: map<Id, Plan>, runId: Id, version: nat)
  {
    && (forall id :: id in plans && plans[id].runId == runId ==> plans[id].version < version)
    && (if exists id :: id in plans && plans[id].runId == runId
        then exists id :: id in plans && plans[id].runId == runId && plans[id].version + 1 == version
        else version == 1)
  }

  function SubtaskRow(planId: Id): (map<Id, Subtask>, Subtask) -> Result<map<Id, Subtask>>
  {
    (subtasks: map<Id, Subtask>, s: Subtask) => if s.planId != planId then Raised else AddUnique(subtasks, s.id, s)
  }

  function AddPlan(p: Progress, governing: Digest, plan: Plan): Result<Progress>
  {
    if plan.governing != governing || plan.runId !in p.runs || !NextVersion(p.plans, plan.runId, plan.version) || plan.id in p.plans then Raised
    else
      var subtasks := Fold(SubtaskRow(plan.id), p.subtasks, plan.subtasks);
      if subtasks.Raised? then Raised else Ok(p.(plans := p.plans[plan.id := plan], subtasks := subtasks.value))
  }

  // ---- progress events ----

  predicate Later(a: (int, Id), b: (int, Id))
  {
    a.0 > b.0 || (a.0 == b.0 && a.1 != b.1 && StringLeq(b.1, a.1))
  }

  /** The plan of the run with the greatest (version, id). */
  predicate IsCurrentPlan(plans: map<Id, Plan>, runId: Id, planId: Id)
  {
    && planId in plans && plans[planId].runId == runId
    && forall id :: id in plans && plans[id].runId == runId ==> id == planId || Later((plans[planId].version, planId), (plans[id].version, id))
  }

  predicate Advances(p: Progress, e: ProgressEvent)
  {
    && IsCurrentPlan(p.plans, e.runId, e.planId)
    && (e.runId in p.heads && p.heads[e.runId].1 in p.events ==>
          var head := p.events[p.heads[e.runId].1];
          head.runId == e.runId && (head.planId == e.planId ==> Later((e.at, e.id), (head.at, head.id))))
  }

  predicate BelongsToPlan(p: Progress, e: ProgressEvent)
  {
    && e.runId in p.runs && e.planId in p.plans && p.plans[e.planId].runId == e.runId
    && e.subtaskId in p.subtasks && p.subtasks[e.subtaskId].planId == e.planId
  }

  function AddProgressEvent(p: Progress, governing: Digest, e: ProgressEvent): Result<Progress>
  {
    if e.governing != governing || !BelongsToPlan(p, e) || !Advances(p, e) || e.id in p.events then Raised
    else Ok(p.(events := p.events[e.id := e], heads := p.heads[e.runId := (e.planId, e.id)]))
  }

  // ---- what every replay keeps ----

  /** A run's plan versions have no gap and no repetition. */
  ghost predicate PlansContiguous(plans: map<Id, Plan>)
  {
    && (forall a, b :: a in plans && b in plans && plans[a].runId == plans[b].runId && plans[a].version == plans[b].version ==> a == b)
    && (forall a :: a in plans ==> plans[a].version >= 1)
    && (forall a :: a in plans && plans[a].version > 1 ==> HasPlan(plans, plans[a].runId, plans[a].version - 1))
  }

  ghost predicate HasPlan(plans: map<Id, Plan>, runId: Id, version: nat)
  {
    exists id :: id in plans && plans[id].runId == runId && plans[id].version == version
  }

  /** The head of a run is its greatest event by plan version, time and id. */
  ghost predicate HeadIsGreatest(p: Progress, runId: Id)
    requires runId in p.heads
  {
    var (planId, eventId) := p.heads[runId];
    && eventId in p.events && p.events[eventId].planId == planId && p.events[eventId].runId == runId
    && p.events[eventId].id == eventId && planId in p.plans
    && forall id :: id in p.events && p.events[id].runId == runId && id != eventId ==> Precedes(p, p.events[id], p.events[eventId])
  }

  ghost predicate Precedes(p: Progress, a: ProgressEvent, b: ProgressEvent)
  {
    && a.planId in p.plans && b.planId in p.plans
    && (p.plans[a.planId].version < p.plans[b.planId].version || (a.planId == b.planId && Later((b.at, b.id), (a.at, a.id))))
  }

  ghost predicate EventsBelong(p: Progress)
  {
    && (forall id :: id in p.events ==> p.events[id].id == id && BelongsToPlan(p, p.events[id]) && p.events[id].runId in p.heads)
    && (forall id :: id in p.runEvents ==> p.runEvents[id].id == id && p.runEvents[id].runId in p.runs && p.runEvents[id].runId in p.runHeads)
    && (forall runId :: runId in p.runHeads ==>
          p.runHeads[runId] in p.runEvents && p.runEvents[p.runHeads[runId]].runId == runId)
    && (forall id :: id in p.plans ==> p.plans[id].id == id && p.plans[id].runId in p.runs)
    && (forall id :: id in p.subtasks ==> p.subtasks[id].planId in p.plans)
  }

  ghost predicate ProgressSound(p: Progress)
  {
    PlansContiguous(p.plans) && EventsBelong(p) && forall runId :: runId in p.heads ==> HeadIsGreatest(p, runId)
  }

  lemma RunKeepsSound(p: Progress, governing: Digest, run: Run)
    requires ProgressSound(p) && AddRun(p, governing, run).Ok?
    ensures ProgressSound(AddRun(p, governing, run).value)
  {
    var q := AddRun(p, governing, run).value;
    RunsBelong(p, q);
    hide PlansContiguous, EventsBelong, HeadIsGreatest;
    SameEventsGreatest(p, q);
  }

  lemma RunsBelong(p: Progress, q: Progress)
    requires EventsBelong(p) && q == p.(runs := q.runs) && forall id :: id in p.runs ==> id in q.runs && q.runs[id] == p.runs[id]
    ensures EventsBelong(q)
  {}

  lemma RunEventBelongs(p: Progress, e: RunEvent, q: Progress)
    requires EventsBelong(p) && e.runId in p.runs && e.id !in p.runEvents
    requires q == p.(runEvents := p.runEvents[e.id := e], runHeads := p.runHeads[e.runId := e.id])
    ensures EventsBelong(q)
  {
    forall x: ProgressEvent
      ensures BelongsToPlan(q, x) == BelongsToPlan(p, x)
    {}
    hide BelongsToPlan;
  }

  lemma RunEventKeepsSound(p: Progress, governing: Digest, e: RunEvent)
    requires ProgressSound(p) && AddRunEvent(p, governing, e).Ok?
    ensures ProgressSound(AddRunEvent(p, governing, e).value)
  {
    hide PlansContiguous, EventsBelong, HeadIsGreatest;
    var q := AddRunEvent(p, governing, e).value;
    RunEventBelongs(p, e, q);
    SameEventsGreatest(p, q);
  }

  /** Adding plans leaves the heads greatest. */
  lemma SameEventsGreatest(p: Progress, q: Progress)
    requires q.events == p.events && q.heads == p.heads && forall id :: id in p.plans ==> id in q.plans && q.plans[id] == p.plans[id]
    requires forall runId :: runId in p.heads ==> HeadIsGreatest(p, runId)
    ensures forall runId :: runId in q.heads ==> HeadIsGreatest(q, runId)
  {}

  lemma NextVersionContiguous(plans: map<Id, Plan>, plan: Plan)
    requires PlansContiguous(plans) && NextVersion(plans, plan.runId, plan.version) && plan.id !in plans
    ensures PlansContiguous(plans[plan.id := plan])
  {
    hide HasPlan;
    var longer := plans[plan.id := plan];
    forall a | a in longer && longer[a].version > 1
      ensures HasPlan(longer, longer[a].runId, longer[a].version - 1)
    {
      if a == plan.id {
        var id :| id in plans && plans[id].runId == plan.runId && plans[id].version + 1 == plan.version;
        PlanHeld(longer, id);
      } else {
        HasPlanLonger(plans, plan, plans[a].runId, plans[a].version - 1);
      }
    }
  }

  lemma PlanHeld(plans: map<Id, Plan>, id: Id)
    requires id in plans
    ensures HasPlan(plans, plans[id].runId, plans[id].version)
  {}

  lemma HasPlanLonger(plans: map<Id, Plan>, plan: Plan, runId: Id, version: nat)
    requires HasPlan(plans, runId, version) && plan.id !in plans
    ensures HasPlan(plans[plan.id := plan], runId, version)
  {
    var id :| id in plans && plans[id].runId == runId && plans[id].version == version;
    assert plans[plan.id := plan][id] == plans[id];
  }

  lemma {:induction false} SubtasksBelong(planId: Id, start: map<Id, Subtask>, added: seq<Subtask>)
    requires Fold(SubtaskRow(planId), start, added).Ok?
    ensures forall id :: id in Fold(SubtaskRow(planId), start, added).value ==>
      id in start || Fold(SubtaskRow(planId), start, added).value[id].planId == planId
    ensures forall id :: id in start ==>
      id in Fold(SubtaskRow(planId), start, added).value && Fold(SubtaskRow(planId), start, added).value[id] == start[id]
  {
    if added != [] {
      FoldPrefix(SubtaskRow(planId), start, added, |added| - 1);
      SubtasksBelong(planId, start, added[..|added| - 1]);
    }
  }

  lemma PlanEventsBelong(p: Progress, plan: Plan, q: Progress)
    requires EventsBelong(p) && plan.runId in p.runs && plan.id !in p.plans
    requires q == p.(plans := p.plans[plan.id := plan], subtasks := q.subtasks)
    requires forall id :: id in p.subtasks ==> id in q.subtasks && q.subtasks[id] == p.subtasks[id]
    requires forall id :: id in q.subtasks ==> id in p.subtasks || q.subtasks[id].planId == plan.id
    ensures EventsBelong(q)
  {}

  lemma PlanKeepsSound(p: Progress, governing: Digest, plan: Plan)
    requires ProgressSound(p) && AddPlan(p, governing, plan).Ok?
    ensures ProgressSound(AddPlan(p, governing, plan).value)
  {
    hide PlansContiguous, EventsBelong, NextVersion, HeadIsGreatest;
    var q := AddPlan(p, governing, plan).value;
    NextVersionContiguous(p.plans, plan);
    SubtasksBelong(plan.id, p.subtasks, plan.subtasks);
    PlanEventsBelong(p, plan, q);
    SameEventsGreatest(p, q);
  }

  /** The event that advances the head precedes nothing. */
  lemma AdvancingIsGreatest(p: Progress, e: ProgressEvent, q: Progress)
    requires ProgressSound(p) && BelongsToPlan(p, e) && Advances(p, e) && e.id !in p.events
    requires q == p.(events := p.events[e.id := e], heads := p.heads[e.runId := (e.planId, e.id)])
    ensures HeadIsGreatest(q, e.runId)
  {
    forall id | id in p.events && p.events[id].runId == e.runId
      ensures Precedes(q, p.events[id], e)
    {
      assert e.runId in p.heads && HeadIsGreatest(p, e.runId);
      HeadAdvanced(p, e);
      var head := p.events[p.heads[e.runId].1];
      if id != head.id {
        assert Precedes(p, p.events[id], head);
        PrecedesTransitive(p, p.events[id], head, e);
      }
    }
  }

  lemma HeadAdvanced(p: Progress, e: ProgressEvent)
    requires PlansContiguous(p.plans) && EventsBelong(p) && e.runId in p.heads && HeadIsGreatest(p, e.runId)
    requires BelongsToPlan(p, e) && Advances(p, e)
    ensures Precedes(p, p.events[p.heads[e.runId].1], e)
  {
    var head := p.events[p.heads[e.runId].1];
    if head.planId != e.planId {
      assert Later((p.plans[e.planId].version, e.planId), (p.plans[head.planId].version, head.planId));
    }
  }

  lemma PrecedesTransitive(p: Progress, a: ProgressEvent, b: ProgressEvent, c: ProgressEvent)
    requires Precedes(p, a, b) && Precedes(p, b, c)
    ensures Precedes(p, a, c)
  {
    if a.planId == b.planId == c.planId && a.at == b.at == c.at {
      StringLeqTransitive(a.id, b.id, c.id);
      StringLeqTotal(a.id, b.id);
      StringLeqTotal(b.id, c.id);
    }
  }

  lemma OtherHeadKept(p: Progress, e: ProgressEvent, q: Progress, runId: Id)
    requires EventsBelong(p) && runId != e.runId && runId in p.heads && HeadIsGreatest(p, runId) && e.id !in p.events
    requires q == p.(events := p.events[e.id := e], heads := p.heads[e.runId := (e.planId, e.id)])
    ensures HeadIsGreatest(q, runId)
  {}

  lemma EventsStillBelong(p: Progress, e: ProgressEvent, q: Progress)
    requires EventsBelong(p) && BelongsToPlan(p, e) && e.id !in p.events
    requires q == p.(events := p.events[e.id := e], heads := p.heads[e.runId := (e.planId, e.id)])
    ensures EventsBelong(q)
  {}

  lemma EventKeepsSound(p: Progress, governing: Digest, e: ProgressEvent)
    requires ProgressSound(p) && AddProgressEvent(p, governing, e).Ok?
    ensures ProgressSound(AddProgressEvent(p, governing, e).value)
  {
    hide PlansContiguous, EventsBelong, HeadIsGreatest, BelongsToPlan, Advances;
    var q := AddProgressEvent(p, governing, e).value;
    EventsStillBelong(p, e, q);
    AdvancingIsGreatest(p, e, q);
    forall runId | runId in q.heads
      ensures HeadIsGreatest(q, runId)
    {
      if runId != e.runId {
        OtherHeadKept(p, e, q, runId);
      }
    }
  }

  // ---- what soundness says about a run's plans ----

  function PlansOf(plans: map<Id, Plan>, runId: Id): set<Id>
  {
    set id | id in plans && plans[id].runId == runId
  }

  function VersionsOf(plans: map<Id, Plan>, runId: Id): set<nat>
  {
    set id | id in plans && plans[id].runId == runId :: plans[id].version
  }

  lemma {:induction false} VersionsDownTo(plans: map<Id, Plan>, runId: Id, version: nat, v: nat)
    requires PlansContiguous(plans) && HasPlan(plans, runId, version) && 1 <= v <= version
    ensures HasPlan(plans, runId, v)
    decreases version - v
  {
    if v < version {
      VersionsDownTo(plans, runId, version, v + 1);
    }
  }

  lemma {:induction false} Interval(versions: set<nat>)
    requires forall v :: v in versions ==> v >= 1
    requires forall v, w :: v in versions && 1 <= w <= v ==> w in versions
    ensures forall v :: v in versions <==> 1 <= v <= |versions|
    decreases |versions|
  {
    if versions != {} {
      var top := MaxOf(versions);
      var rest := versions - {top};
      Interval(rest);
      assert |rest| == |versions| - 1;
      assert top > |versions| ==> |versions| in rest;
    }
  }

  lemma {:induction false} MaxOf(versions: set<nat>) returns (top: nat)
    requires versions != {}
    ensures top in versions && forall v :: v in versions ==> v <= top
    decreases |versions|
  {
    top :| top in versions;
    var rest := versions - {top};
    assert versions == rest + {top};
    if rest != {} {
      var other := MaxOf(rest);
      if other > top {
        top := other;
      }
    }
  }

  lemma {:induction false} SameCount(plans: map<Id, Plan>, ids: set<Id>)
    requires forall a, b :: a in ids && b in ids && a != b ==> a in plans && b in plans && plans[a].version != plans[b].version
    requires ids <= plans.Keys
    ensures |set id | id in ids :: plans[id].version| == |ids|
    decreases |ids|
  {
    var versions := set id | id in ids :: plans[id].version;
    if ids == {} {
      assert versions == {};
    } else {
      var a :| a in ids;
      SameCount(plans, ids - {a});
      assert versions == (set id | id in ids - {a} :: plans[id].version) + {plans[a].version};
    }
  }

  /** In every sound state the plans of a run have the versions 1 to n, each once. */
  lemma PlanVersionsAreContiguous(p: Progress, runId: Id)
    requires ProgressSound(p)
    ensures |VersionsOf(p.plans, runId)| == |PlansOf(p.plans, runId)|
    ensures forall v :: v in VersionsOf(p.plans, runId) <==> 1 <= v <= |PlansOf(p.plans, runId)|
  {
    VersionsAreInterval(p.plans, runId);
    PlansHaveVersions(p.plans, runId);
  }

  lemma VersionsAreInterval(plans: map<Id, Plan>, runId: Id)
    requires PlansContiguous(plans)
    ensures forall v :: v in VersionsOf(plans, runId) <==> 1 <= v <= |VersionsOf(plans, runId)|
  {
    var versions := VersionsOf(plans, runId);
    forall v, w | v in versions && 1 <= w <= v
      ensures w in versions
    {
      var id :| id in plans && plans[id].runId == runId && plans[id].version == v;
      assert HasPlan(plans, runId, v);
      VersionsDownTo(plans, runId, v, w);
    }
    Interval(versions);
  }

  lemma PlansHaveVersions(plans: map<Id, Plan>, runId: Id)
    requires PlansContiguous(plans)
    ensures |VersionsOf(plans, runId)| == |PlansOf(plans, runId)|
  {
    var ids := PlansOf(plans, runId);
    SameCount(plans, ids);
    assert VersionsOf(plans, runId) == set id | id in ids :: plans[id].version;
  }

  // ---- the dictionaries, filled in place ----

  class ProgressTables {
    var runs: map<Id, Run>
    var runEvents: map<Id, RunEvent>
    var runHeads: map<Id, Id>
    var plans: map<Id, Plan>
    var subtasks: map<Id, Subtask>
    var events: map<Id, ProgressEvent>
    var heads: map<Id, (Id, Id)>

    function Contents(): Progress
      reads this
    {
      Progress(runs, runEvents, runHeads, plans, subtasks, events, heads)
    }

    constructor ()
      ensures Contents() == NO_PROGRESS
    {
      runs, runEvents, runHeads, plans, subtasks, events, heads := map[], map[], map[], map[], map[], map[], map[];
    }

    method CreateRun(governing: Digest, run: Run) returns (ok: bool)
      modifies this`runs
      ensures ok <==> AddRun(old(Contents()), governing, run).Ok?
      ensures ok ==> Contents() == AddRun(old(Contents()), governing, run).value
    {
      ok := run.governing == governing && run.id !in runs;
      if ok {
        runs := runs[run.id := run];
      }
    }

    method AppendRunEvent(governing: Digest, e: RunEvent) returns (ok: bool)
      modifies this`runEvents, this`runHeads
      ensures ok <==> AddRunEvent(old(Contents()), governing, e).Ok?
      ensures ok ==> Contents() == AddRunEvent(old(Contents()), governing, e).value
    {
      ok := e.governing == governing && e.runId in runs && e.id !in runEvents;
      if ok {
        runEvents := runEvents[e.id := e];
        runHeads := runHeads[e.runId := e.id];
      }
    }

    /** `max(prior versions, default=0)`. */
    method GreatestVersion(runId: Id) returns (greatest: nat)
      ensures forall id :: id in plans && plans[id].runId == runId ==> plans[id].version <= greatest
      ensures (exists id :: id in plans && plans[id].runId == runId && plans[id].version == greatest) || greatest == 0
    {
      greatest := 0;
      var rest := plans.Keys;
      while rest != {}
        invariant rest <= plans.Keys
        invariant forall id :: id in plans.Keys - rest && plans[id].runId == runId ==> plans[id].version <= greatest
        invariant greatest == 0 || exists id :: id in plans && plans[id].runId == runId && plans[id].version == greatest
        decreases |rest|
      {
        var id :| id in rest;
        rest := rest - {id};
        if plans[id].runId == runId && plans[id].version > greatest {
          greatest := plans[id].version;
        }
      }
    }

    method RecordPlan(governing: Digest, plan: Plan) returns (ok: bool)
      requires ProgressSound(Contents())
      modifies this`plans, this`subtasks
      ensures ok <==> AddPlan(old(Contents()), governing, plan).Ok?
      ensures ok ==> Contents() == AddPlan(old(Contents()), governing, plan).value
    {
      if plan.governing != governing || plan.runId !in runs {
        return false;
      }
      var greatest := GreatestVersion(plan.runId);
      ghost var before := subtasks;
      NextIsGreatestPlusOne(plans, plan.runId, plan.version, greatest);
      if plan.version != greatest + 1 || plan.id in plans {
        return false;
      }
      plans := plans[plan.id := plan];
      ghost var step := SubtaskRow(plan.id);
      for i := 0 to |plan.subtasks|
        invariant Fold(step, before, plan.subtasks[..i]) == Ok(subtasks)
        invariant plans == old(plans)[plan.id := plan]
      {
        var s := plan.subtasks[i];
        FoldSnoc(step, before, plan.subtasks[..i], s);
        assert plan.subtasks[..i + 1] == plan.subtasks[..i] + [s];
        if s.planId != plan.id || s.id in subtasks {
          if Fold(step, before, plan.subtasks).Ok? {
            FoldPrefix(step, before, plan.subtasks, i + 1);
          }
          return false;
        }
        subtasks := subtasks[s.id := s];
      }
      assert plan.subtasks[..|plan.subtasks|] == plan.subtasks;
      return true;
    }

    method AppendEvent(governing: Digest, e: ProgressEvent) returns (ok: bool)
      modifies this`events, this`heads
      ensures ok <==> AddProgressEvent(old(Contents()), governing, e).Ok?
      ensures ok ==> Contents() == AddProgressEvent(old(Contents()), governing, e).value
    {
      if e.governing != governing || !BelongsToPlan(Contents(), e) {
        return false;
      }
      var advances := EventAdvancesHead(e);
      ok := advances && e.id !in events;
      if ok {
        events := events[e.id := e];
        heads := heads[e.runId := (e.planId, e.id)];
      }
    }

    /** `event_advances_progress_head`, with the scan for the current plan. */
    method EventAdvancesHead(e: ProgressEvent) returns (advances: bool)
      ensures advances <==> Advances(Contents(), e)
    {
      if e.planId !in plans || plans[e.planId].runId != e.runId {
        return false;
      }
      var rest := plans.Keys;
      while rest != {}
        invariant rest <= plans.Keys
        invariant forall id :: id in plans.Keys - rest && plans[id].runId == e.runId ==>
          id == e.planId || Later((plans[e.planId].version, e.planId), (plans[id].version, id))
        decreases |rest|
      {
        var id :| id in rest;
        if plans[id].runId == e.runId && id != e.planId && !Later((plans[e.planId].version, e.planId), (plans[id].version, id)) {
          return false;
        }
        rest := rest - {id};
      }
      if e.runId in heads && heads[e.runId].1 in events {
        var head := events[heads[e.runId].1];
        return head.runId == e.runId && (head.planId != e.planId || Later((e.at, e.id), (head.at, head.id)));
      }
      return true;
    }
  }

  lemma NextIsGreatestPlusOne(plans: map<Id, Plan>, runId: Id, version: nat, greatest: nat)
    requires PlansContiguous(plans)
    requires forall id :: id in plans && plans[id].runId == runId ==> plans[id].version <= greatest
    requires greatest == 0 || exists id :: id in plans && plans[id].runId == runId && plans[id].version == greatest
    ensures NextVersion(plans, runId, version) <==> version == greatest + 1
  {}
}
