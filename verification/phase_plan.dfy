/** Phase progression: one call completes the current phase and starts the first dependency-ready planned one. */
module PhaseProgress {
  import opened Basics
  import opened DependencyGraph

  datatype PhaseStatus = Deferred | Planned | Current | Complete

  datatype ImplementationPhase = ImplementationPhase(id: string, status: PhaseStatus, dependsOn: seq<string>)

  datatype PhasePlan = PhasePlan(currentPhaseId: string, phases: seq<ImplementationPhase>)

  /** The second error lists every planned phase with its dependencies. */
  datatype AdvanceError =
    | NoCurrentPhase(id: string)
    | InvalidStatus(phase: ImplementationPhase)
    | Blocked(waiting: seq<ImplementationPhase>)

  datatype Advanced = Advanced(plan: PhasePlan, completedPhaseId: string, nextPhase: Option<ImplementationPhase>)

  predicate Listed(from: PhaseStatus, to: PhaseStatus) {
    match from
    case Deferred => to == Planned
    case Planned => to == Current || to == Deferred
    case Current => to == Complete
    case Complete => false
  }

  /** `transitionImplementationPhase`: no change, a listed change, or an exception. */
  function Transition(p: ImplementationPhase, next: PhaseStatus): Option<ImplementationPhase> {
    if p.status == next then Some(p)
    else if Listed(p.status, next) then Some(p.(status := next))
    else None
  }

  /** `phases.find((phase) => phase.id === id)`, as a position. */
  function Find(phases: seq<ImplementationPhase>, id: string): (r: Option<nat>)
    ensures r.Some? ==> r.value < |phases| && phases[r.value].id == id
    ensures r.None? ==> forall i :: 0 <= i < |phases| ==> phases[i].id != id
  {
    if phases == [] then None
    else
      var n := |phases| - 1;
      match Find(phases[..n], id)
      case Some(i) => Some(i)
      case None => assert phases == phases[..n] + [phases[n]]; if phases[n].id == id then Some(n) else None
  }

  ghost function WithStatus(phases: seq<ImplementationPhase>, status: PhaseStatus): set<string> {
    set i | 0 <= i < |phases| && phases[i].status == status :: phases[i].id
  }

  function PlannedOnly(phases: seq<ImplementationPhase>): (r: seq<ImplementationPhase>)
    ensures r == [] <==> forall i :: 0 <= i < |phases| ==> phases[i].status != Planned
    ensures forall p :: p in r <==> p in phases && p.status == Planned
  {
    if phases == [] then []
    else
      var n := |phases| - 1;
      assert phases == phases[..n] + [phases[n]];
      PlannedOnly(phases[..n]) + if phases[n].status == Planned then [phases[n]] else []
  }

  ghost predicate ReadyAt(phases: seq<ImplementationPhase>, done: set<string>, i: nat) {
    i < |phases| && phases[i].status == Planned && forall d :: d in phases[i].dependsOn ==> d in done
  }

  /** The first planned phase whose dependencies are all done, as a position. */
  ghost function FirstReady(phases: seq<ImplementationPhase>, done: set<string>): (r: Option<nat>)
    ensures r.Some? ==> ReadyAt(phases, done, r.value) && forall i :: 0 <= i < r.value ==> !ReadyAt(phases, done, i)
    ensures r.None? ==> forall i: nat :: !ReadyAt(phases, done, i)
  {
    if phases == [] then None
    else
      var n := |phases| - 1;
      assert forall i :: 0 <= i < n ==> (ReadyAt(phases[..n], done, i) <==> ReadyAt(phases, done, i));
      match FirstReady(phases[..n], done)
      case Some(i) => Some(i)
      case None => if ReadyAt(phases, done, n) then Some(n) else None
  }

  /** What one call does. */
  ghost function Advance(input: PhasePlan): Result<Advanced, AdvanceError> {
    match Find(input.phases, input.currentPhaseId)
    case None => Err(NoCurrentPhase(input.currentPhaseId))
    case Some(c) =>
      var current := input.phases[c];
      if current.status != Current && current.status != Complete then Err(InvalidStatus(current))
      else
        var phases := input.phases[c := current.(status := Complete)];
        match FirstReady(phases, WithStatus(phases, Complete))
        case Some(n) =>
          var next := phases[n].(status := Current);
          Ok(Advanced(PhasePlan(next.id, phases[n := next]), current.id, Some(next)))
        case None =>
          if PlannedOnly(phases) != [] then Err(Blocked(PlannedOnly(phases)))
          else Ok(Advanced(PhasePlan(current.id, phases), current.id, None))
  }

  method FindPhase(phases: seq<ImplementationPhase>, id: string) returns (r: Option<nat>)
    ensures r == Find(phases, id)
  {
    for i := 0 to |phases|
      invariant Find(phases[..i], id) == None
    {
      assert phases[..i + 1][..i] == phases[..i];
      if phases[i].id == id {
        FindStays(phases, id, i + 1);
        return Some(i);
      }
    }
    assert phases[..|phases|] == phases;
    return None;
  }

  lemma {:induction false} FindStays(phases: seq<ImplementationPhase>, id: string, k: nat)
    requires k <= |phases| && Find(phases[..k], id).Some?
    ensures Find(phases, id) == Find(phases[..k], id)
  {
    if k == |phases| {
      assert phases[..k] == phases;
    } else {
      var n := |phases| - 1;
      assert phases[..n][..k] == phases[..k];
      FindStays(phases[..n], id, k);
    }
  }

  method CompletedIds(phases: seq<ImplementationPhase>) returns (ids: set<string>)
    ensures ids == WithStatus(phases, Complete)
  {
    ids := {};
    for i := 0 to |phases|
      invariant ids == set j | 0 <= j < i && phases[j].status == Complete :: phases[j].id
    {
      if phases[i].status == Complete {
        ids := ids + {phases[i].id};
      }
    }
  }

  method FindReady(phases: seq<ImplementationPhase>, done: set<string>) returns (r: Option<nat>)
    ensures r == FirstReady(phases, done)
  {
    for i := 0 to |phases|
      invariant forall j :: 0 <= j < i ==> !ReadyAt(phases, done, j)
    {
      if phases[i].status == Planned && forall d :: d in phases[i].dependsOn ==> d in done {
        assert ReadyAt(phases, done, i);
        return Some(i);
      }
    }
    return None;
  }

  method AdvancePhasePlan(input: PhasePlan) returns (r: Result<Advanced, AdvanceError>)
    ensures r == Advance(input)
  {
    var phases := input.phases;
    var c := FindPhase(phases, input.currentPhaseId);
    if c.None? {
      return Err(NoCurrentPhase(input.currentPhaseId));
    }
    var current := phases[c.value];
    if current.status != Current && current.status != Complete {
      return Err(InvalidStatus(current));
    }
    var completed := Transition(current, Complete);
    phases := phases[c.value := completed.value];
    var done := CompletedIds(phases);
    var next := FindReady(phases, done);
    var planned := PlannedOnly(phases);
    if next.None? && planned != [] {
      return Err(Blocked(planned));
    }
    if next.None? {
      return Ok(Advanced(PhasePlan(current.id, phases), current.id, None));
    }
    var started := Transition(phases[next.value], Current);
    phases := phases[next.value := started.value];
    return Ok(Advanced(PhasePlan(started.value.id, phases), current.id, started));
  }

  // ---- What every call keeps ------------------------------------------------------------

  ghost predicate UniquePhases(phases: seq<ImplementationPhase>) {
    forall i, j :: 0 <= i < j < |phases| ==> phases[i].id != phases[j].id
  }

  /** Whatever is complete or under way had its dependencies complete first. */
  ghost predicate Grounded(phases: seq<ImplementationPhase>) {
    forall i, d :: 0 <= i < |phases| && (phases[i].status == Complete || phases[i].status == Current) &&
        d in phases[i].dependsOn
      ==> d in WithStatus(phases, Complete)
  }

  /** At most one phase is current, and it is the one the plan names. */
  ghost predicate SoleCurrent(plan: PhasePlan) {
    && (forall i :: 0 <= i < |plan.phases| && plan.phases[i].status == Current ==>
          plan.phases[i].id == plan.currentPhaseId)
    && plan.currentPhaseId in WithStatus(plan.phases, Current) + WithStatus(plan.phases, Complete)
  }

  ghost predicate PhaseInv(plan: PhasePlan) {
    UniquePhases(plan.phases) && SoleCurrent(plan)
  }

  ghost function Done(plan: PhasePlan): set<string> {
    WithStatus(plan.phases, Complete) + {plan.currentPhaseId}
  }

  /** Changing one status moves one id between two status classes. */
  lemma {:induction false} StatusMoves(phases: seq<ImplementationPhase>, k: nat, to: PhaseStatus)
    requires UniquePhases(phases) && k < |phases|
    ensures
      var after := phases[k := phases[k].(status := to)];
      && UniquePhases(after)
      && WithStatus(after, to) == WithStatus(phases, to) + {phases[k].id}
      && forall s :: s != to ==> WithStatus(after, s) == WithStatus(phases, s) - {phases[k].id}
  {
    var after := phases[k := phases[k].(status := to)];
    assert after[k].id in WithStatus(after, to);
    forall s, x ensures x in WithStatus(after, s) <==> if s == to then x in WithStatus(phases, s) || x == phases[k].id
      else x in WithStatus(phases, s) && x != phases[k].id
    {
      if x in WithStatus(after, s) {
        var i :| 0 <= i < |after| && after[i].status == s && after[i].id == x;
        if i != k { assert phases[i].id == x && phases[i].status == s; }
      }
      if x in WithStatus(phases, s) && x != phases[k].id {
        var i :| 0 <= i < |phases| && phases[i].status == s && phases[i].id == x;
        assert after[i].id == x && after[i].status == s;
      }
    }
  }

  lemma {:induction false} CurrentIsThere(plan: PhasePlan) returns (c: nat)
    requires PhaseInv(plan)
    ensures c < |plan.phases| && plan.phases[c].id == plan.currentPhaseId
    ensures plan.phases[c].status == Current || plan.phases[c].status == Complete
    ensures Find(plan.phases, plan.currentPhaseId) == Some(c)
  {
    c :| 0 <= c < |plan.phases| && plan.phases[c].id == plan.currentPhaseId
      && (plan.phases[c].status == Current || plan.phases[c].status == Complete);
  }

  /** The first half of a call: the current phase is complete, nothing is current. */
  lemma {:induction false} CompletingKeeps(plan: PhasePlan, c: nat)
    requires PhaseInv(plan) && c < |plan.phases| && plan.phases[c].id == plan.currentPhaseId
    requires plan.phases[c].status == Current || plan.phases[c].status == Complete
    ensures
      var phases := plan.phases[c := plan.phases[c].(status := Complete)];
      && UniquePhases(phases) && (Grounded(plan.phases) ==> Grounded(phases))
      && WithStatus(phases, Complete) == Done(plan)
      && WithStatus(phases, Planned) == WithStatus(plan.phases, Planned)
      && WithStatus(phases, Current) == {}
  {
    var phases := plan.phases[c := plan.phases[c].(status := Complete)];
    StatusMoves(plan.phases, c, Complete);
    assert plan.currentPhaseId !in WithStatus(plan.phases, Planned);
    assert WithStatus(phases, Current) == {};
    forall i, d | Grounded(plan.phases) && 0 <= i < |phases| &&
        (phases[i].status == Complete || phases[i].status == Current) && d in phases[i].dependsOn
      ensures d in WithStatus(phases, Complete)
    {
      assert phases[i].dependsOn == plan.phases[i].dependsOn;
    }
  }

  /** The second half: a ready phase becomes the current one. */
  lemma {:induction false} StartingKeeps(phases: seq<ImplementationPhase>, n: nat)
    requires UniquePhases(phases) && WithStatus(phases, Current) == {}
    requires ReadyAt(phases, WithStatus(phases, Complete), n)
    ensures
      var after := phases[n := phases[n].(status := Current)];
      && PhaseInv(PhasePlan(phases[n].id, after)) && (Grounded(phases) ==> Grounded(after))
      && WithStatus(after, Complete) == WithStatus(phases, Complete)
      && WithStatus(after, Planned) == WithStatus(phases, Planned) - {phases[n].id}
      && phases[n].id in WithStatus(phases, Planned)
  {
    var after := phases[n := phases[n].(status := Current)];
    StatusMoves(phases, n, Current);
    assert phases[n].id !in WithStatus(phases, Complete);
    assert WithStatus(after, Current) == {phases[n].id};
    forall i | 0 <= i < |after| && after[i].status == Current ensures after[i].id == phases[n].id {
      assert after[i].id in WithStatus(after, Current);
    }
    assert PhasePlan(phases[n].id, after).currentPhaseId in WithStatus(after, Current);
    forall i, d | Grounded(phases) && 0 <= i < |after| &&
        (after[i].status == Complete || after[i].status == Current) && d in after[i].dependsOn
      ensures d in WithStatus(after, Complete)
    {
      assert after[i].dependsOn == phases[i].dependsOn;
    }
  }

  /** Ids and dependencies never change, only statuses. */
  ghost predicate SameShape(a: seq<ImplementationPhase>, b: seq<ImplementationPhase>) {
    |a| == |b| && forall i :: 0 <= i < |a| ==> a[i].id == b[i].id && a[i].dependsOn == b[i].dependsOn
  }

  /**
   * A call that returns keeps the invariant and leaves a grounded plan grounded, completes exactly the current
   * phase, and starts at most one planned phase, whose dependencies are all complete; it starts none only when
   * none is planned.
   */
  lemma {:induction false} AdvanceKeeps(plan: PhasePlan)
    requires PhaseInv(plan) && Advance(plan).Ok?
    ensures
      var a := Advance(plan).value;
      && PhaseInv(a.plan) && (Grounded(plan.phases) ==> Grounded(a.plan.phases))
      && SameShape(a.plan.phases, plan.phases)
      && a.completedPhaseId == plan.currentPhaseId
      && WithStatus(a.plan.phases, Complete) == Done(plan)
      && match a.nextPhase
         case Some(p) =>
           && p.id == a.plan.currentPhaseId && p.id in WithStatus(plan.phases, Planned)
           && (forall d :: d in p.dependsOn ==> d in Done(plan))
           && WithStatus(a.plan.phases, Planned) == WithStatus(plan.phases, Planned) - {p.id}
           && WithStatus(a.plan.phases, Current) == {p.id}
         case None => WithStatus(plan.phases, Planned) == {} == WithStatus(a.plan.phases, Current)
  {
    hide FirstReady, PlannedOnly, Find, Grounded;
    var c := CurrentIsThere(plan);
    var phases := plan.phases[c := plan.phases[c].(status := Complete)];
    CompletingKeeps(plan, c);
    match FirstReady(phases, WithStatus(phases, Complete))
    case Some(n) =>
      StartingKeeps(phases, n);
      StatusMoves(phases, n, Current);
    case None =>
      assert PlannedOnly(phases) == [];
      assert WithStatus(phases, Planned) == {};
      assert plan.currentPhaseId in WithStatus(phases, Complete);
  }

  /** The started phase is the first of the list that is planned and waits for nothing. */
  lemma {:induction false} StartsFirstReady(plan: PhasePlan)
    requires PhaseInv(plan) && Advance(plan).Ok? && Advance(plan).value.nextPhase.Some?
    ensures exists n :: 0 <= n < |plan.phases| && plan.phases[n].status == Planned &&
                        Advance(plan).value.nextPhase.value == plan.phases[n].(status := Current) &&
                        !StuckAt(plan, plan.phases[n]) &&
                        forall m :: 0 <= m < n && plan.phases[m].status == Planned ==> StuckAt(plan, plan.phases[m])
  {
    var c := CurrentIsThere(plan);
    var phases := plan.phases[c := plan.phases[c].(status := Complete)];
    CompletingKeeps(plan, c);
    var n := FirstReady(phases, WithStatus(phases, Complete)).value;
    assert ReadyAt(phases, WithStatus(phases, Complete), n);
    forall m | 0 <= m < n && plan.phases[m].status == Planned ensures StuckAt(plan, plan.phases[m]) {
      assert !ReadyAt(phases, WithStatus(phases, Complete), m);
    }
  }

  ghost predicate StuckAt(plan: PhasePlan, p: ImplementationPhase) {
    exists d :: d in p.dependsOn && d !in Done(plan)
  }

  ghost predicate AllStuck(plan: PhasePlan) {
    forall i :: 0 <= i < |plan.phases| && plan.phases[i].status == Planned ==> StuckAt(plan, plan.phases[i])
  }

  /** With the invariant, a call throws exactly when phases are planned and each of them waits for one not done. */
  lemma {:induction false} BlockedExactly(plan: PhasePlan)
    requires PhaseInv(plan)
    ensures Advance(plan).Err? <==> (WithStatus(plan.phases, Planned) != {} && AllStuck(plan))
    ensures Advance(plan).Err? ==> Advance(plan).error.Blocked?
  {
    var c := CurrentIsThere(plan);
    var phases := plan.phases[c := plan.phases[c].(status := Complete)];
    CompletingKeeps(plan, c);
    var ready := FirstReady(phases, WithStatus(phases, Complete));
    if ready.Some? {
      assert !StuckAt(plan, plan.phases[ready.value]);
    } else {
      forall i | 0 <= i < |plan.phases| && plan.phases[i].status == Planned ensures StuckAt(plan, plan.phases[i]) {
        assert !ReadyAt(phases, WithStatus(phases, Complete), i);
      }
      if PlannedOnly(phases) == [] {
        assert WithStatus(phases, Planned) == {};
      } else {
        var p := PlannedOnly(phases)[0];
        assert p in PlannedOnly(phases);
        var i :| 0 <= i < |phases| && phases[i] == p;
        assert p.id in WithStatus(phases, Planned);
      }
    }
  }

  // ---- Runs -----------------------------------------------------------------------------

  /** The phases in the order they were completed, and the plan that is left. */
  datatype Finished = Finished(completed: seq<string>, plan: PhasePlan)

  /** Calls `advancePhasePlan` until it reports no next phase or throws. */
  ghost function RunPhases(plan: PhasePlan): Result<Finished, AdvanceError>
    requires PhaseInv(plan)
    decreases WithStatus(plan.phases, Planned)
  {
    match Advance(plan)
    case Err(e) => Err(e)
    case Ok(a) =>
      AdvanceKeeps(plan);
      if a.nextPhase.None? then Ok(Finished([a.completedPhaseId], a.plan))
      else
        match RunPhases(a.plan)
        case Err(e) => Err(e)
        case Ok(f) => Ok(Finished([a.completedPhaseId] + f.completed, f.plan))
  }

  /** The current phase first, then exactly the planned ones, in as many calls as there are phases. */
  ghost predicate Completes(current: string, planned: set<string>, completed: seq<string>) {
    |completed| == |planned| + 1 && completed[0] == current && Elems(completed) == {current} + planned
  }

  ghost predicate FinishedWell(plan: PhasePlan, f: Finished) {
    && Completes(plan.currentPhaseId, WithStatus(plan.phases, Planned), f.completed)
    && PhaseInv(f.plan) && SameShape(f.plan.phases, plan.phases)
    && (Grounded(plan.phases) ==> Grounded(f.plan.phases))
    && WithStatus(f.plan.phases, Current) == {} == WithStatus(f.plan.phases, Planned)
    && WithStatus(f.plan.phases, Complete) == WithStatus(plan.phases, Complete) + Elems(f.completed)
  }

  /** Each completed phase found its dependencies complete at the start or completed by an earlier call. */
  ghost predicate CompletedInOrder(plan: PhasePlan, completed: seq<string>) {
    forall k, i, d :: 0 < k < |completed| && 0 <= i < |plan.phases| && plan.phases[i].id == completed[k] &&
        d in plan.phases[i].dependsOn
      ==> d in WithStatus(plan.phases, Complete) + Elems(completed[..k])
  }

  /** The first call of a run that ends, and the run after it. */
  lemma {:induction false} RunStep(plan: PhasePlan)
    requires PhaseInv(plan) && RunPhases(plan).Ok?
    ensures Advance(plan).Ok? && Advance(plan).value.completedPhaseId == plan.currentPhaseId
    ensures
      var a, f := Advance(plan).value, RunPhases(plan).value;
      && PhaseInv(a.plan)
      && (a.nextPhase.None? ==> f == Finished([plan.currentPhaseId], a.plan))
      && (a.nextPhase.Some? ==>
            && WithStatus(a.plan.phases, Planned) < WithStatus(plan.phases, Planned)
            && RunPhases(a.plan).Ok?
            && f == Finished([plan.currentPhaseId] + RunPhases(a.plan).value.completed, RunPhases(a.plan).value.plan))
  {
    AdvanceKeeps(plan);
  }

  lemma {:induction false} Prepend(current: string, next: string, planned: set<string>, rest: seq<string>)
    requires next in planned && Completes(next, planned - {next}, rest)
    ensures Completes(current, planned, [current] + rest)
    ensures Elems([current] + rest) == {current} + Elems(rest)
  {
    assert planned == (planned - {next}) + {next};
    assert forall x :: x in [current] + rest <==> x == current || x in rest;
  }

  lemma {:induction false} PrependRun(plan: PhasePlan, a: PhasePlan, rest: Finished)
    requires PhaseInv(plan) && FinishedWell(a, rest) && SameShape(a.phases, plan.phases)
    requires a.currentPhaseId in WithStatus(plan.phases, Planned) && WithStatus(a.phases, Complete) == Done(plan)
    requires Grounded(plan.phases) ==> Grounded(a.phases)
    requires WithStatus(a.phases, Planned) == WithStatus(plan.phases, Planned) - {a.currentPhaseId}
    ensures FinishedWell(plan, Finished([plan.currentPhaseId] + rest.completed, rest.plan))
  {
    hide Grounded, PhaseInv;
    Prepend(plan.currentPhaseId, a.currentPhaseId, WithStatus(plan.phases, Planned), rest.completed);
    SameShapeTrans(rest.plan.phases, a.phases, plan.phases);
  }

  lemma {:induction false} SameShapeTrans(
    a: seq<ImplementationPhase>, b: seq<ImplementationPhase>, c: seq<ImplementationPhase>)
    requires SameShape(a, b) && SameShape(b, c)
    ensures SameShape(a, c)
  {
  }

  /**
   * A run that does not throw takes exactly one call more than there were planned phases, and completes the
   * current phase first and then every planned one.
   */
  lemma {:induction false} RunCounts(plan: PhasePlan)
    requires PhaseInv(plan) && RunPhases(plan).Ok?
    ensures FinishedWell(plan, RunPhases(plan).value)
    decreases WithStatus(plan.phases, Planned)
  {
    RunStep(plan);
    AdvanceKeeps(plan);
    var a := Advance(plan).value;
    if a.nextPhase.Some? {
      RunCounts(a.plan);
      PrependRun(plan, a.plan, RunPhases(a.plan).value);
    } else {
      LastCall(plan, a);
    }
  }

  lemma {:induction false} LastCall(plan: PhasePlan, a: Advanced)
    requires PhaseInv(plan) && PhaseInv(a.plan) && SameShape(a.plan.phases, plan.phases)
    requires WithStatus(plan.phases, Planned) == {} && (Grounded(plan.phases) ==> Grounded(a.plan.phases))
    requires WithStatus(a.plan.phases, Planned) == {} == WithStatus(a.plan.phases, Current)
    requires WithStatus(a.plan.phases, Complete) == Done(plan)
    ensures FinishedWell(plan, Finished([plan.currentPhaseId], a.plan))
  {
    assert Elems([plan.currentPhaseId]) == {plan.currentPhaseId};
  }

  /** No phase is completed twice. */
  lemma {:induction false} EachPhaseOnce(plan: PhasePlan)
    requires PhaseInv(plan) && RunPhases(plan).Ok?
    ensures NoDup(RunPhases(plan).value.completed)
  {
    RunCounts(plan);
    DoneIsNotPlanned(plan, plan.currentPhaseId);
    NoDupSize(RunPhases(plan).value.completed);
  }

  lemma {:induction false} RunRespectsDependencies(plan: PhasePlan)
    requires PhaseInv(plan) && RunPhases(plan).Ok?
    ensures CompletedInOrder(plan, RunPhases(plan).value.completed)
    decreases WithStatus(plan.phases, Planned)
  {
    RunStep(plan);
    AdvanceKeeps(plan);
    var a := Advance(plan).value;
    if a.nextPhase.Some? {
      RunRespectsDependencies(a.plan);
      RunCounts(a.plan);
      PrependInOrder(plan, a.plan, RunPhases(a.plan).value.completed);
    }
  }

  lemma {:induction false} PrependInOrder(plan: PhasePlan, a: PhasePlan, rest: seq<string>)
    requires PhaseInv(plan) && Advance(plan).Ok? && Advance(plan).value.nextPhase.Some? && a == Advance(plan).value.plan
    requires SameShape(a.phases, plan.phases) && WithStatus(a.phases, Complete) == Done(plan)
    requires CompletedInOrder(a, rest) && rest != [] && rest[0] == a.currentPhaseId
    ensures CompletedInOrder(plan, [plan.currentPhaseId] + rest)
  {
    var all := [plan.currentPhaseId] + rest;
    forall k, i, d | 0 < k < |all| && 0 <= i < |plan.phases| && plan.phases[i].id == all[k] &&
        d in plan.phases[i].dependsOn
      ensures d in WithStatus(plan.phases, Complete) + Elems(all[..k])
    {
      assert all[k] == rest[k - 1] && all[..k] == [plan.currentPhaseId] + rest[..k - 1];
      if k > 1 {
        assert a.phases[i].id == rest[k - 1] && d in a.phases[i].dependsOn;
        assert d in WithStatus(a.phases, Complete) + Elems(rest[..k - 1]);
      } else {
        NextIsReady(plan, i, d);
      }
    }
  }

  lemma {:induction false} NextIsReady(plan: PhasePlan, i: nat, d: string)
    requires PhaseInv(plan) && Advance(plan).Ok? && Advance(plan).value.nextPhase.Some?
    requires i < |plan.phases| && plan.phases[i].id == Advance(plan).value.plan.currentPhaseId
    requires d in plan.phases[i].dependsOn
    ensures d in Done(plan)
  {
    AdvanceKeeps(plan);
    var c := CurrentIsThere(plan);
    var phases := plan.phases[c := plan.phases[c].(status := Complete)];
    CompletingKeeps(plan, c);
    var n := FirstReady(phases, WithStatus(phases, Complete)).value;
    assert phases[n].id == phases[i].id;
    assert n == i;
  }

  // ---- Which plans run to the end -------------------------------------------------------

  /** The dependencies of the planned phases. */
  ghost function PlannedGraph(plan: PhasePlan): (g: Graph)
    requires UniquePhases(plan.phases)
    ensures g.Keys == WithStatus(plan.phases, Planned)
    ensures forall i :: 0 <= i < |plan.phases| && plan.phases[i].status == Planned ==>
              g[plan.phases[i].id] == plan.phases[i].dependsOn
  {
    map id | id in WithStatus(plan.phases, Planned) :: DependenciesOf(plan.phases, id)
  }

  ghost function DependenciesOf(phases: seq<ImplementationPhase>, id: string): (deps: seq<string>)
    requires UniquePhases(phases) && id in WithStatus(phases, Planned)
    ensures forall i :: 0 <= i < |phases| && phases[i].id == id ==> deps == phases[i].dependsOn
  {
    var i :| 0 <= i < |phases| && phases[i].status == Planned && phases[i].id == id;
    phases[i].dependsOn
  }

  /** What a caller can check first: planned dependencies are known, not deferred, and acyclic. */
  ghost predicate Runnable(plan: PhasePlan)
    requires UniquePhases(plan.phases)
  {
    && (forall a, d :: Edge(PlannedGraph(plan), a, d) ==> d in Done(plan) + WithStatus(plan.phases, Planned))
    && !Cyclic(PlannedGraph(plan))
  }

  lemma {:induction false} RunnableAdvances(plan: PhasePlan)
    requires PhaseInv(plan) && Runnable(plan)
    ensures Advance(plan).Ok?
  {
    BlockedExactly(plan);
    var g, planned := PlannedGraph(plan), WithStatus(plan.phases, Planned);
    if Advance(plan).Err? {
      forall x | x in planned ensures HasSuccessorIn(g, planned, x) {
        var i :| 0 <= i < |plan.phases| && plan.phases[i].status == Planned && plan.phases[i].id == x;
        var d :| d in plan.phases[i].dependsOn && d !in Done(plan);
        assert Edge(g, x, d);
      }
      TrapIsCyclic(g, planned);
    }
  }

  lemma {:induction false} EdgesShrink(plan: PhasePlan)
    requires PhaseInv(plan) && Advance(plan).Ok? && Advance(plan).value.nextPhase.Some?
    ensures
      var a := Advance(plan).value.plan;
      && a.currentPhaseId in PlannedGraph(plan)
      && forall x, d :: Edge(PlannedGraph(a), x, d) <==> x != a.currentPhaseId && Edge(PlannedGraph(plan), x, d)
  {
    AdvanceKeeps(plan);
    var a := Advance(plan).value.plan;
    forall x, d ensures Edge(PlannedGraph(a), x, d) <==> x != a.currentPhaseId && Edge(PlannedGraph(plan), x, d) {
      if x in PlannedGraph(a) {
        var i :| 0 <= i < |a.phases| && a.phases[i].status == Planned && a.phases[i].id == x;
        assert plan.phases[i].id == x;
      }
    }
  }

  /** One call turns the planned graph into itself without the phase it started. */
  lemma {:induction false} GraphShrinks(plan: PhasePlan)
    requires PhaseInv(plan) && Advance(plan).Ok? && Advance(plan).value.nextPhase.Some?
    ensures
      var a := Advance(plan).value.plan;
      && PhaseInv(a)
      && a.currentPhaseId in PlannedGraph(plan)
      && (forall x, d :: Edge(PlannedGraph(a), x, d) <==> x != a.currentPhaseId && Edge(PlannedGraph(plan), x, d))
      && (forall d :: Edge(PlannedGraph(plan), a.currentPhaseId, d) ==> d in Done(plan))
  {
    AdvanceKeeps(plan);
    var a := Advance(plan).value.plan;
    EdgesShrink(plan);
    forall d | Edge(PlannedGraph(plan), a.currentPhaseId, d) ensures d in Done(plan) {
      var i :| 0 <= i < |plan.phases| && plan.phases[i].status == Planned && plan.phases[i].id == a.currentPhaseId;
      NextIsReady(plan, i, d);
    }
  }

  /** Done phases are not planned, except that the plan's own current id could be; the invariant excludes that. */
  lemma {:induction false} DoneIsNotPlanned(plan: PhasePlan, d: string)
    requires PhaseInv(plan) && d in Done(plan)
    ensures d !in WithStatus(plan.phases, Planned)
  {
    var c := CurrentIsThere(plan);
  }

  /** A node without successors inside the graph lies on no cycle. */
  lemma {:induction false} SinkOffCycle(g: Graph, h: Graph, n: string)
    requires forall x, d :: Edge(h, x, d) <==> x != n && Edge(g, x, d)
    requires forall d :: Edge(g, n, d) ==> d !in g
    ensures Cyclic(g) <==> Cyclic(h)
  {
    if Cyclic(h) {
      var p :| IsPath(h, p) && |p| >= 2 && p[0] == p[|p| - 1];
      assert IsPath(g, p);
    }
    if Cyclic(g) {
      var p :| IsPath(g, p) && |p| >= 2 && p[0] == p[|p| - 1];
      forall i | 0 <= i < |p| - 1 ensures Edge(h, p[i], p[i + 1]) {
        assert Edge(g, p[i], p[i + 1]);
        if i < |p| - 2 { assert Edge(g, p[i + 1], p[i + 2]); } else { assert Edge(g, p[0], p[1]); }
      }
      assert IsPath(h, p);
    }
  }

  lemma {:induction false} RunnableShrinks(plan: PhasePlan)
    requires PhaseInv(plan) && Advance(plan).Ok? && Advance(plan).value.nextPhase.Some?
    ensures PhaseInv(Advance(plan).value.plan)
    ensures Runnable(plan) <==> Runnable(Advance(plan).value.plan)
  {
    hide Advance, Edge, PlannedGraph, WithStatus;
    AdvanceKeeps(plan);
    GraphShrinks(plan);
    var a := Advance(plan).value.plan;
    var g, h := PlannedGraph(plan), PlannedGraph(a);
    forall d | Edge(g, a.currentPhaseId, d) ensures d !in g { DoneIsNotPlanned(plan, d); }
    SinkOffCycle(g, h, a.currentPhaseId);
    assert Done(a) + WithStatus(a.phases, Planned) == Done(plan) + WithStatus(plan.phases, Planned);
    if Runnable(a) {
      forall x, d | Edge(g, x, d) ensures d in Done(plan) + WithStatus(plan.phases, Planned) {
        if x != a.currentPhaseId { assert Edge(h, x, d); }
      }
    }
    if Runnable(plan) {
      forall x, d | Edge(h, x, d) ensures d in Done(a) + WithStatus(a.phases, Planned) { assert Edge(g, x, d); }
    }
  }

  /** The run reaches its end exactly when the planned dependencies are known and acyclic. */
  lemma {:induction false} RunEndsIffRunnable(plan: PhasePlan)
    requires PhaseInv(plan)
    ensures RunPhases(plan).Ok? <==> Runnable(plan)
    decreases WithStatus(plan.phases, Planned)
  {
    if Advance(plan).Err? {
      if Runnable(plan) { RunnableAdvances(plan); }
    } else {
      AdvanceKeeps(plan);
      var a := Advance(plan).value;
      if a.nextPhase.Some? {
        RunnableShrinks(plan);
        RunEndsIffRunnable(a.plan);
      } else {
        OrderedIsAcyclic(PlannedGraph(plan), []);
      }
    }
  }
}
