/** How a prompt ends, what asking and answering leave behind, and what closing does to waiters, over every run. */
module AcpOutcomes {
  import opened Basics
  import opened AcpProtocol
  import opened AcpRuns

  // ---- How a prompt ends ----------------------------------------------------------------

  /** After a run that fits. */
  lemma {:induction false} NextTask(es: seq<Event>, e: Event, s: SessionId, t: TaskId)
    requires Legal(es) && Legal(es + [e]) && HasTask(After(es), s, t)
    ensures Enabled(After(es), e) && After(es + [e]) == Next(After(es), e)
    ensures HasTask(After(es + [e]), s, t) && TaskInv(After(es).objects[s].tasks[t])
  {
    hide AfterBuild, AfterRun, FinishFromError, Cancel, Respond, Ask, Close;
    assert (es + [e])[..|es + [e]| - 1] == es;
    TasksAlwaysConsistent(es);
    StepEvolves(After(es), e, s, t);
  }

  lemma {:induction false} EndOfRun(u: Task, ok: bool)
    requires TaskInv(u) && u.at == AwaitRun
    ensures
      var v := AfterRun(u, ok);
      && v.at == Finished && v.phase == Complete
      && v.status == (if u.status == CancelRequested then Cancelled
                      else if ok && u.status == Running then Completed else Failed)
  {
  }

  lemma {:induction false} EndOfBuild(u: Task, planned: bool, stopped: bool)
    requires TaskInv(u) && u.at == AwaitBuild
    ensures
      var v := AfterBuild(u, planned, stopped);
      if u.status != CancelRequested && planned && u.autoRun then
        v.at == AwaitRun && v.phase == Run && v.runStarted && !u.runStarted && v.status == u.status
      else
        && v.at == Finished && v.phase == Complete && !v.runStarted
        && v.status == (if u.status == CancelRequested then Cancelled
                        else if !planned then (if stopped then Cancelled else Failed)
                        else if u.status == Running then Completed else Failed)
  {
  }

  lemma {:induction false} EndByThrow(u: Task)
    requires TaskInv(u) && u.at != Finished
    ensures
      var v := FinishFromError(u);
      && v.at == Finished && v.phase == Complete && v.runStarted == u.runStarted
      && v.status == (if u.status == CancelRequested then Cancelled else Failed)
  {
  }

  /**
   * When `runtime.run` returns the prompt is over: cancelled if a cancellation was accepted, else completed exactly
   * when the run succeeded and the task was not waiting for the client, else failed.
   */
  lemma {:induction false} RunOutcome(es: seq<Event>, s: SessionId, t: TaskId, ok: bool)
    requires Legal(es) && Legal(es + [RunReturns(s, t, ok)]) && HasTask(After(es), s, t)
    ensures HasTask(After(es + [RunReturns(s, t, ok)]), s, t)
    ensures
      var u, v := After(es).objects[s].tasks[t], After(es + [RunReturns(s, t, ok)]).objects[s].tasks[t];
      && v.at == Finished && v.phase == Complete
      && v.status == (if u.status == CancelRequested then Cancelled
                      else if ok && u.status == Running then Completed else Failed)
  {
    hide AfterRun, TaskInv;
    NextTask(es, RunReturns(s, t, ok), s, t);
    EndOfRun(After(es).objects[s].tasks[t], ok);
  }

  /**
   * When `runtime.build` returns: a cancelled task ends cancelled; without a plan the prompt ends, cancelled if the
   * build was stopped and failed otherwise; with a plan and no automatic run it ends, completed exactly when the task
   * was not waiting; only with a plan and automatic run is the run started, once.
   */
  lemma {:induction false} BuildOutcome(es: seq<Event>, s: SessionId, t: TaskId, planned: bool, stopped: bool)
    requires Legal(es) && Legal(es + [BuildReturns(s, t, planned, stopped)]) && HasTask(After(es), s, t)
    ensures HasTask(After(es + [BuildReturns(s, t, planned, stopped)]), s, t)
    ensures
      var u, v := After(es).objects[s].tasks[t], After(es + [BuildReturns(s, t, planned, stopped)]).objects[s].tasks[t];
      if u.status != CancelRequested && planned && u.autoRun then
        v.at == AwaitRun && v.phase == Run && v.runStarted && !u.runStarted && v.status == u.status
      else
        && v.at == Finished && v.phase == Complete && !v.runStarted
        && v.status == (if u.status == CancelRequested then Cancelled
                        else if !planned then (if stopped then Cancelled else Failed)
                        else if u.status == Running then Completed else Failed)
  {
    hide AfterBuild, TaskInv;
    NextTask(es, BuildReturns(s, t, planned, stopped), s, t);
    EndOfBuild(After(es).objects[s].tasks[t], planned, stopped);
  }

  /** An exception of the runtime ends the prompt: cancelled if a cancellation was accepted, else failed. */
  lemma {:induction false} ThrowOutcome(es: seq<Event>, s: SessionId, t: TaskId)
    requires Legal(es) && Legal(es + [RuntimeThrows(s, t)]) && HasTask(After(es), s, t)
    ensures HasTask(After(es + [RuntimeThrows(s, t)]), s, t)
    ensures
      var u, v := After(es).objects[s].tasks[t], After(es + [RuntimeThrows(s, t)]).objects[s].tasks[t];
      && v.at == Finished && v.phase == Complete && v.runStarted == u.runStarted
      && v.status == (if u.status == CancelRequested then Cancelled else Failed)
  {
    hide FinishFromError, TaskInv;
    NextTask(es, RuntimeThrows(s, t), s, t);
    EndByThrow(After(es).objects[s].tasks[t]);
  }

  /** A prompt starts a running task in the build phase, listed as the latest of its session; nothing else changes. */
  lemma {:induction false} PromptStarts(es: seq<Event>, s: SessionId, t: TaskId, autoRun: bool)
    requires Legal(es) && Legal(es + [Prompt(s, t, autoRun)]) && s in After(es).open && s in After(es).objects
    ensures
      var st, v := After(es), After(es + [Prompt(s, t, autoRun)]);
      && HasTask(v, s, t) && SameTables(st, v)
      && var task := v.objects[s].tasks[t];
         && task.status == Running && task.phase == Build && task.at == AwaitBuild && task.autoRun == autoRun
         && !task.runStarted && !task.cancellationRequested && !task.aborted
         && ActiveTask(v.objects[s]) == Some(t)
         && (forall q, x :: HasTask(st, q, x) ==> HasTask(v, q, x) && v.objects[q].tasks[x] == st.objects[q].tasks[x])
  {
    assert (es + [Prompt(s, t, autoRun)])[..|es|] == es;
  }

  /** A finished prompt stays as it is, apart from the mark of a refused cancellation. */
  lemma {:induction false} FinishedStays(es: seq<Event>, fs: seq<Event>, s: SessionId, t: TaskId)
    requires Legal(es) && Legal(es + fs) && HasTask(After(es), s, t) && After(es).objects[s].tasks[t].at == Finished
    ensures HasTask(After(es + fs), s, t)
    ensures
      var u, v := After(es).objects[s].tasks[t], After(es + fs).objects[s].tasks[t];
      v == u.(cancellationRequested := v.cancellationRequested)
    decreases |fs|
  {
    if fs == [] {
      assert es + fs == es;
    } else {
      var mid, e := es + fs[..|fs| - 1], fs[|fs| - 1];
      assert (es + fs)[..|es + fs| - 1] == mid && es + fs == mid + [e];
      FinishedStays(es, fs[..|fs| - 1], s, t);
      NextTask(mid, e, s, t);
      StepKeepsFinished(After(mid), e, s, t);
    }
  }

  lemma {:induction false} StepKeepsFinished(st: State, e: Event, s: SessionId, t: TaskId)
    requires Enabled(st, e) && HasTask(st, s, t) && TaskInv(st.objects[s].tasks[t])
    requires st.objects[s].tasks[t].at == Finished
    ensures HasTask(Next(st, e), s, t)
    ensures
      var u, v := st.objects[s].tasks[t], Next(st, e).objects[s].tasks[t];
      v == u.(cancellationRequested := v.cancellationRequested)
  {
    hide AfterBuild, AfterRun, FinishFromError, Ask, Respond, Cancel, Close;
    match e
    case AskClient(q, x, r, k) => AskKeepsFinished(st, q, x, r, k, s, t);
    case ClientResponds(r) => RespondKeepsFinished(st, r, s, t);
    case ClientCancels(q, named) => CancelChanges(st, q, named, s, t);
    case ClientCloses(q) => CloseKeepsObjects(st, q);
    case _ =>
  }

  lemma {:induction false} AskKeepsFinished(
    st: State, q: SessionId, x: TaskId, r: RequestId, k: Kind, s: SessionId, t: TaskId)
    requires q in st.objects && HasTask(st, s, t) && Terminal(st.objects[s].tasks[t].status)
    ensures HasTask(Ask(st, q, x, r, k), s, t)
    ensures Ask(st, q, x, r, k).objects[s].tasks[t] == st.objects[s].tasks[t]
  {
  }

  lemma {:induction false} RespondKeepsFinished(st: State, r: RequestId, s: SessionId, t: TaskId)
    requires HasTask(st, s, t) && Terminal(st.objects[s].tasks[t].status)
    ensures HasTask(Respond(st, r).0, s, t) && Respond(st, r).0.objects[s].tasks[t] == st.objects[s].tasks[t]
  {
  }

  lemma {:induction false} CloseKeepsObjects(st: State, s: SessionId)
    ensures Close(st, s).objects == st.objects
  {
  }

  /** Another task, whatever a segment of this one does. */
  lemma {:induction false} SegmentsTouchOneTask(st: State, e: Event, q: SessionId, x: TaskId)
    requires Enabled(st, e) && (e.BuildReturns? || e.RunReturns? || e.RuntimeThrows?)
    requires HasTask(st, q, x) && (q != e.s || x != e.t)
    ensures HasTask(Next(st, e), q, x) && Next(st, e).objects[q].tasks[x] == st.objects[q].tasks[x]
    ensures SameTables(st, Next(st, e))
  {
    hide AfterBuild, AfterRun, FinishFromError;
  }

  // ---- Asking and answering -------------------------------------------------------------

  /** The status a task has while the client is asked. */
  lemma {:induction false} AskedStatus(es: seq<Event>, s: SessionId, t: TaskId, r: RequestId, k: Kind)
    requires Legal(es) && Legal(es + [AskClient(s, t, r, k)])
    requires HasTask(After(es), s, t) && After(es).objects[s].tasks[t].status == Running
    ensures HasTask(After(es + [AskClient(s, t, r, k)]), s, t)
    ensures
      var u, v := After(es).objects[s].tasks[t], After(es + [AskClient(s, t, r, k)]).objects[s].tasks[t];
      v == u.(status := if k == Interaction then WaitingForConfirmation else WaitingForPermission)
  {
    NextTask(es, AskClient(s, t, r, k), s, t);
  }

  /**
   * Asking and answering undo each other: a running task that asks in an open session and is answered leaves every
   * session, task and table as it was; only the waiter has been settled, once.
   */
  lemma {:induction false} AskedAndAnswered(es: seq<Event>, s: SessionId, t: TaskId, r: RequestId, k: Kind)
    requires Legal(es) && Legal(es + [AskClient(s, t, r, k)])
    requires HasTask(After(es), s, t) && After(es).objects[s].tasks[t].status == Running && s in After(es).open
    ensures Legal(es + [AskClient(s, t, r, k)] + [ClientResponds(r)])
    ensures
      var st, v := After(es), After(es + [AskClient(s, t, r, k)] + [ClientResponds(r)]);
      && v.objects == st.objects && v.open == st.open && v.pending == st.pending && v.refused == st.refused
      && v.settled == st.settled + multiset{r}
  {
    hide TasksInv, TaskInv, TableInv, Next;
    var asked := es + [AskClient(s, t, r, k)];
    NextTask(es, AskClient(s, t, r, k), s, t);
    assert (asked + [ClientResponds(r)])[..|asked|] == asked;
    TablesAlwaysAgree(es);
    FreshIsUnlisted(After(es), s, r, k);
    AnsweredAgain(After(es), s, t, r, k);
    NextIs(After(es), asked, s, t, r, k);
  }

  lemma {:induction false} NextIs(st: State, asked: seq<Event>, s: SessionId, t: TaskId, r: RequestId, k: Kind)
    requires s in st.objects && r !in st.issuer
    requires Legal(asked) && After(asked) == Next(st, AskClient(s, t, r, k))
    requires Legal(asked + [ClientResponds(r)])
    ensures After(asked + [ClientResponds(r)]) == Respond(Ask(st, s, t, r, k), r).0
  {
    assert (asked + [ClientResponds(r)])[..|asked|] == asked;
  }

  lemma {:induction false} FreshIsUnlisted(st: State, s: SessionId, r: RequestId, k: Kind)
    requires TableInv(st) && s in st.objects && r !in st.issuer
    ensures r !in st.pending && r !in Table(st.objects[s], k)
  {
  }

  lemma {:induction false} AnsweredAgain(st: State, s: SessionId, t: TaskId, r: RequestId, k: Kind)
    requires HasTask(st, s, t) && st.objects[s].tasks[t].status == Running && s in st.open
    requires r !in st.pending && r !in Table(st.objects[s], k)
    ensures
      var v := Respond(Ask(st, s, t, r, k), r).0;
      && v.objects == st.objects && v.open == st.open && v.pending == st.pending && v.refused == st.refused
      && v.settled == st.settled + multiset{r}
  {
    hide StatusListed, TransitionStatus;
    var session, task := st.objects[s], st.objects[s].tasks[t];
    RunningMayAsk(task, k);
    AskedAndBack(session, t, r, k);
    assert st.pending[r := Pending(s, k)] - {r} == st.pending;
    var asked := session.tasks[t := task.(status := WaitingStatus(k))];
    WithTableReads(session, k, Table(session, k)[r := t], asked);
    hide Table, WithTable;
    var v := Respond(Ask(st, s, t, r, k), r).0;
    assert v.objects[s] == session;
    assert v.objects == st.objects;
  }

  lemma {:induction false} WithTableReads(
    session: Session, k: Kind, table: map<RequestId, TaskId>, tasks: map<TaskId, Task>)
    ensures
      var v := WithTable(session, k, table);
      Table(v, k) == table && v.tasks == session.tasks && Table(v.(tasks := tasks), k) == table
  {
  }

  lemma {:induction false} RunningMayAsk(task: Task, k: Kind)
    requires task.status == Running
    ensures TransitionStatus(task, WaitingStatus(k)) == Some(task.(status := WaitingStatus(k)))
  {
  }

  lemma {:induction false} AskedAndBack(session: Session, t: TaskId, r: RequestId, k: Kind)
    requires t in session.tasks && session.tasks[t].status == Running && r !in Table(session, k)
    ensures
      var asked := WithTable(session, k, Table(session, k)[r := t]).(
        tasks := session.tasks[t := session.tasks[t].(status := WaitingStatus(k))]);
      var unlisted := WithTable(asked, k, Table(asked, k) - {r});
      unlisted.(tasks := asked.tasks[t := asked.tasks[t].(status := Running)]) == session
  {
    assert Table(session, k)[r := t] - {r} == Table(session, k);
    assert session.tasks[t := session.tasks[t].(status := WaitingStatus(k))][t := session.tasks[t]] == session.tasks;
  }

  // ---- Which task a cancellation is about -----------------------------------------------

  predicate ActiveIn(session: Session, t: TaskId) {
    t in session.tasks && session.tasks[t].at != Finished
  }

  /** A cancellation that names no task is about the latest one that has not finished; there is none if all have. */
  lemma {:induction false} LatestActive(es: seq<Event>, s: SessionId)
    requires Legal(es) && s in After(es).objects
    ensures
      var session := After(es).objects[s];
      match ActiveTask(session)
      case None => forall k :: 0 <= k < |session.order| ==> !ActiveIn(session, session.order[k])
      case Some(t) =>
        exists k :: 0 <= k < |session.order| && session.order[k] == t && ActiveIn(session, t) &&
                    forall j :: k < j < |session.order| ==> !ActiveIn(session, session.order[j])
  {
    TasksAlwaysConsistent(es);
    LatestIn(After(es).objects[s], After(es).objects[s].order);
  }

  lemma {:induction false} LatestIn(session: Session, order: seq<TaskId>)
    requires forall t :: t in session.tasks ==> TaskInv(session.tasks[t])
    ensures
      match LastActive(session, order)
      case None => forall k :: 0 <= k < |order| ==> !ActiveIn(session, order[k])
      case Some(t) =>
        exists k :: 0 <= k < |order| && order[k] == t && ActiveIn(session, t) &&
                    forall j :: k < j < |order| ==> !ActiveIn(session, order[j])
  {
    if order != [] {
      var n := |order| - 1;
      LatestIn(session, order[..n]);
      assert order == order[..n] + [order[n]];
      if LastActive(session, order) == Some(order[n]) { assert ActiveIn(session, order[n]); }
    }
  }

  /** A cancellation leaves the other tasks and their requests alone, in both tables. */
  lemma {:induction false} CancelLeavesOthers(
    es: seq<Event>, s: SessionId, named: Option<TaskId>, q: SessionId, k: Kind, r: RequestId)
    requires Legal(es) && Legal(es + [ClientCancels(s, named)])
    requires q in After(es).objects && r in Table(After(es).objects[q], k)
    requires q != s || Some(Table(After(es).objects[q], k)[r]) != Chosen(After(es), s, named)
    ensures
      var st, v := After(es), After(es + [ClientCancels(s, named)]);
      && q in v.objects && r in Table(v.objects[q], k) && Table(v.objects[q], k)[r] == Table(st.objects[q], k)[r]
      && (r in v.pending <==> r in st.pending) && v.settled[r] == st.settled[r]
  {
    hide TasksInv, TaskInv, TransitionStatus;
    assert (es + [ClientCancels(s, named)])[..|es|] == es;
    TablesAlwaysAgree(es);
    OthersListed(After(es), s, named, q, k, r);
  }

  lemma {:induction false} OthersListed(
    st: State, s: SessionId, named: Option<TaskId>, q: SessionId, k: Kind, r: RequestId)
    requires TableInv(st) && q in st.objects && r in Table(st.objects[q], k)
    requires q != s || Some(Table(st.objects[q], k)[r]) != Chosen(st, s, named)
    ensures
      var v := Cancel(st, s, named).0;
      && q in v.objects && r in Table(v.objects[q], k) && Table(v.objects[q], k)[r] == Table(st.objects[q], k)[r]
      && (r in v.pending <==> r in st.pending) && v.settled[r] == st.settled[r]
  {
    hide TransitionStatus, LastActive, Stop, WithTask, TableInv, Rejected;
    if s in st.open && s in st.objects && Chosen(st, s, named).Some? {
      var t := Chosen(st, s, named).value;
      NotRejected(st, s, t, q, k, r);
      if t in st.objects[s].tasks {
        var marked := st.objects[s].tasks[t].(cancellationRequested := true);
        match TransitionStatus(marked, CancelRequested)
        case Some(u) => StopLeaves(st, s, t, u, q, k, r);
        case None => MarkLeaves(st, s, t, marked, q, k);
      }
    }
  }

  lemma {:induction false} StopLeaves(
    st: State, s: SessionId, t: TaskId, task: Task, q: SessionId, k: Kind, r: RequestId)
    requires q in st.objects && s in st.objects && r in Table(st.objects[q], k) && r !in Rejected(st.objects[s], t)
    ensures
      var v := Stop(st, s, st.objects[s], t, task);
      && q in v.objects && r in Table(v.objects[q], k) && Table(v.objects[q], k)[r] == Table(st.objects[q], k)[r]
      && (r in v.pending <==> r in st.pending) && v.settled[r] == st.settled[r]
  {
  }

  lemma {:induction false} MarkLeaves(st: State, s: SessionId, t: TaskId, task: Task, q: SessionId, k: Kind)
    requires q in st.objects && s in st.objects
    ensures
      var v := WithTask(st, s, t, task);
      && q in v.objects && Table(v.objects[q], k) == Table(st.objects[q], k)
      && v.pending == st.pending && v.settled == st.settled
  {
  }

  lemma {:induction false} NotRejected(st: State, s: SessionId, t: TaskId, q: SessionId, k: Kind, r: RequestId)
    requires TableInv(st) && q in st.objects && s in st.objects && r in Table(st.objects[q], k) && s in st.open
    requires q != s || Table(st.objects[q], k)[r] != t
    ensures r !in Rejected(st.objects[s], t)
  {
    assert st.issuer[r] == q;
    assert r in st.objects[s].interactions ==> r in Table(st.objects[s], Interaction) && st.issuer[r] == s;
    assert r in st.objects[s].permissions ==> r in Table(st.objects[s], Permission) && st.issuer[r] == s;
  }

  // ---- Closing --------------------------------------------------------------------------

  /** Closing a session settles every waiter it still has, so each request it ever asked has been settled. */
  lemma {:induction false} CloseSettlesAll(es: seq<Event>, s: SessionId, r: RequestId)
    requires Legal(es) && Legal(es + [ClientCloses(s)])
    requires s in After(es).open && r in After(es).issuer && After(es).issuer[r] == s
    ensures After(es + [ClientCloses(s)]).settled[r] == Early(After(es), r) + 1
    ensures s !in After(es + [ClientCloses(s)]).open
  {
    hide TasksInv, TaskInv, TableInv, Early, Close;
    assert (es + [ClientCloses(s)])[..|es|] == es;
    TablesAlwaysAgree(es);
    CloseSettles(After(es), s, r);
  }

  lemma {:induction false} CloseSettles(st: State, s: SessionId, r: RequestId)
    requires TableInv(st) && s in st.open && r in st.issuer && st.issuer[r] == s
    ensures Close(st, s).settled[r] == Early(st, r) + 1 && s !in Close(st, s).open
  {
    var session := st.objects[s];
    assert r in session.interactions <==> r in Table(session, Interaction);
    assert r in session.permissions <==> r in Table(session, Permission);
    assert r in session.interactions.Keys + session.permissions.Keys <==> r in st.pending;
  }

  /**
   * The prompt of a closed session runs on, and what it asks then is never answered: whatever happens later, the
   * waiter is not settled, unless the task's status refused it at once.
   */
  lemma {:induction false} AskedAfterCloseHangs(
    es: seq<Event>, s: SessionId, t: TaskId, r: RequestId, k: Kind, fs: seq<Event>)
    requires Legal(es) && Legal(es + [AskClient(s, t, r, k)]) && Legal(es + [AskClient(s, t, r, k)] + fs)
    requires s in After(es).objects && s !in After(es).open && r !in After(es).issuer
    ensures After(es + [AskClient(s, t, r, k)] + fs).settled[r] == if AskRefused(After(es).objects[s], t,
        k) then 1 else 0
  {
    hide TasksInv, TaskInv, AskRefused, TableInv, Ask;
    var asked := es + [AskClient(s, t, r, k)];
    assert asked[..|es|] == es;
    TablesAlwaysAgree(es);
    AskLists(After(es), s, t, r, k);
    AskSettles(After(es), s, t, r, k);
    ClosedStaysUnsettled(asked, fs, s, r);
  }

  lemma {:induction false} AskSettles(st: State, s: SessionId, t: TaskId, r: RequestId, k: Kind)
    requires TableInv(st) && s in st.objects && r !in st.issuer
    ensures Ask(st, s, t, r, k).settled[r] == if AskRefused(st.objects[s], t, k) then 1 else 0
    ensures Ask(st, s, t, r, k).open == st.open && s in Ask(st, s, t, r, k).objects
  {
  }

  lemma {:induction false} ClosedStaysUnsettled(es: seq<Event>, fs: seq<Event>, s: SessionId, r: RequestId)
    requires Legal(es) && Legal(es + fs)
    requires s in After(es).objects && s !in After(es).open && r in After(es).issuer && After(es).issuer[r] == s
    ensures s in After(es + fs).objects && s !in After(es + fs).open
    ensures r in After(es + fs).issuer && After(es + fs).issuer[r] == s
    ensures After(es + fs).settled[r] == After(es).settled[r]
    decreases |fs|
  {
    hide TasksInv, TaskInv;
    if fs == [] {
      assert es + fs == es;
    } else {
      var mid, e := es + fs[..|fs| - 1], fs[|fs| - 1];
      assert (es + fs)[..|es + fs| - 1] == mid;
      ClosedStaysUnsettled(es, fs[..|fs| - 1], s, r);
      TablesAlwaysAgree(mid);
      ClosedStep(After(mid), e, s, r);
    }
  }

  lemma {:induction false} ClosedStep(st: State, e: Event, s: SessionId, r: RequestId)
    requires TableInv(st) && Enabled(st, e)
    requires s in st.objects && s !in st.open && r in st.issuer && st.issuer[r] == s
    ensures s in Next(st, e).objects && s !in Next(st, e).open
    ensures r in Next(st, e).issuer && Next(st, e).issuer[r] == s && Next(st, e).settled[r] == st.settled[r]
  {
    hide AfterBuild, AfterRun, FinishFromError, Respond, Cancel, Close, TransitionStatus;
    match e
    case ClientResponds(q) => RespondClosed(st, q, s, r);
    case ClientCancels(q, named) => CancelClosed(st, q, named, s, r);
    case ClientCloses(q) => CloseClosed(st, q, s, r);
    case _ =>
  }

  /** The request stays with its closed session, and nobody settles it. */
  ghost predicate StaysClosed(st: State, v: State, s: SessionId, r: RequestId) {
    s in v.objects && s !in v.open && r in v.issuer && v.issuer[r] == s && v.settled[r] == st.settled[r]
  }

  lemma {:induction false} RespondClosed(st: State, q: RequestId, s: SessionId, r: RequestId)
    requires TableInv(st) && s in st.objects && s !in st.open && r in st.issuer && st.issuer[r] == s
    ensures StaysClosed(st, Respond(st, q).0, s, r)
  {
    hide SettledOnce, TablesAgree;
  }

  lemma {:induction false} CancelClosed(st: State, q: SessionId, named: Option<TaskId>, s: SessionId, r: RequestId)
    requires TableInv(st) && s in st.objects && s !in st.open && r in st.issuer && st.issuer[r] == s
    ensures StaysClosed(st, Cancel(st, q, named).0, s, r)
  {
    hide SettledOnce, TransitionStatus, LastActive, TableInv;
    if q in st.open { OwnRequests(st, q, r); }
  }

  lemma {:induction false} CloseClosed(st: State, q: SessionId, s: SessionId, r: RequestId)
    requires TableInv(st) && s in st.objects && s !in st.open && r in st.issuer && st.issuer[r] == s
    ensures StaysClosed(st, Close(st, q), s, r)
  {
    hide SettledOnce, TableInv;
    if q in st.open { OwnRequests(st, q, r); }
  }

  lemma {:induction false} OwnRequests(st: State, q: SessionId, r: RequestId)
    requires TableInv(st) && q in st.open && r in st.issuer && st.issuer[r] != q
    ensures q in st.objects && r !in st.objects[q].interactions && r !in st.objects[q].permissions
  {
    assert r !in Table(st.objects[q], Interaction) && r !in Table(st.objects[q], Permission);
  }

  /** Such a run: the session closes during the build, and the build asks a question. */
  lemma {:induction false} AskedAfterCloseWitness(s: SessionId, t: TaskId, r: RequestId)
    ensures
      var es := [NewSession(s), Prompt(s, t, true), ClientCloses(s), AskClient(s, t, r, Interaction)];
      Legal(es) && HasTask(After(es), s, t) && After(es).objects[s].tasks[t].status == WaitingForConfirmation &&
      After(es).settled[r] == 0
  {
    var a, b, c, d := NewSession(s), Prompt(s, t, true), ClientCloses(s), AskClient(s, t, r, Interaction);
    Extends([], a);
    Extends([a], b);
    assert [a, b] == [a] + [b];
    Extends([a, b], c);
    assert [a, b, c] == [a, b] + [c];
    Extends([a, b, c], d);
    assert [a, b, c, d] == [a, b, c] + [d];
  }
}
