/**
 * The ACP server between awaits: sessions, tasks, and the two tables of requests waiting for the
 * client. Code between awaits is one atomic event; client messages and runtime answers interleave.
 */
module AcpProtocol {
  import opened Basics

  type SessionId = string
  type TaskId = string
  type RequestId = string

  datatype Status =
    | Running
    | WaitingForConfirmation
    | WaitingForPermission
    | Completed
    | Failed
    | CancelRequested
    | Cancelled

  datatype TaskPhase = Build | Run | Complete

  predicate Terminal(s: Status) {
    s == Completed || s == Failed || s == Cancelled
  }

  /** The listed status changes; equal states are handled before the table is read. */
  predicate StatusListed(from: Status, to: Status) {
    match from
    case Running => to != Running
    case WaitingForConfirmation => to == Running || to == Failed || to == CancelRequested || to == Cancelled
    case WaitingForPermission => to == Running || to == Failed || to == CancelRequested || to == Cancelled
    case CancelRequested => to == Cancelled
    case _ => false
  }

  predicate PhaseListed(from: TaskPhase, to: TaskPhase) {
    match from
    case Build => to == Run || to == Complete
    case Run => to == Complete
    case Complete => false
  }

  /** Where the prompt's coroutine is suspended. */
  datatype Await = AwaitBuild | AwaitRun | Finished

  datatype Task = Task(
    status: Status,
    phase: TaskPhase,
    cancellationRequested: bool,
    aborted: bool,
    autoRun: bool,
    at: Await,
    runStarted: bool
  )

  function TransitionStatus(t: Task, next: Status): (r: Option<Task>) {
    if t.status == next then Some(t)
    else if StatusListed(t.status, next) then Some(t.(status := next))
    else None
  }

  function TransitionPhase(t: Task, next: TaskPhase): (r: Option<Task>) {
    if t.phase == next then Some(t)
    else if PhaseListed(t.phase, next) then Some(t.(phase := next))
    else None
  }

  datatype Kind = Interaction | Permission

  datatype Session = Session(
    tasks: map<TaskId, Task>,
    order: seq<TaskId>,
    interactions: map<RequestId, TaskId>,
    permissions: map<RequestId, TaskId>
  )

  datatype Pending = Pending(session: SessionId, kind: Kind)

  /**
   * `objects` holds every session ever created, since running coroutines keep closed ones alive;
   * `open` is the store. `issuer` and `settled` record who issued each request id and how often its
   * waiter was resolved or rejected; `refused` holds the ids whose asking the task's status refused.
   */
  datatype State = State(
    objects: map<SessionId, Session>,
    open: set<SessionId>,
    pending: map<RequestId, Pending>,
    issuer: map<RequestId, SessionId>,
    settled: multiset<RequestId>,
    refused: set<RequestId>
  )

  function Init(): State {
    State(map[], {}, map[], map[], multiset{}, {})
  }

  function Table(s: Session, k: Kind): map<RequestId, TaskId> {
    match k
    case Interaction => s.interactions
    case Permission => s.permissions
  }

  function WithTable(s: Session, k: Kind, table: map<RequestId, TaskId>): Session {
    match k
    case Interaction => s.(interactions := table)
    case Permission => s.(permissions := table)
  }

  function WaitingStatus(k: Kind): Status {
    match k
    case Interaction => WaitingForConfirmation
    case Permission => WaitingForPermission
  }

  function WithTask(st: State, s: SessionId, t: TaskId, task: Task): State
    requires s in st.objects
  {
    st.(objects := st.objects[s := st.objects[s].(tasks := st.objects[s].tasks[t := task])])
  }

  // ---- The atomic segments --------------------------------------------------------------

  predicate CancelSignalled(t: Task) {
    t.cancellationRequested || t.aborted
  }

  /** `finishTaskFromError`; a refused transition escapes it and leaves the task as it was. */
  function FinishFromError(t: Task): Task {
    match TransitionStatus(t, if CancelSignalled(t) then Cancelled else Failed)
    case None => t.(at := Finished)
    case Some(u) =>
      match TransitionPhase(u, Complete)
      case None => u.(at := Finished)
      case Some(v) => v.(at := Finished)
  }

  /** Moves a task to a final status and completes its phase, or fails over to the error path. */
  function FinishWith(t: Task, next: Status): Task {
    match TransitionStatus(t, next)
    case None => FinishFromError(t)
    case Some(u) =>
      match TransitionPhase(u, Complete)
      case None => FinishFromError(u)
      case Some(v) => v.(at := Finished)
  }

  /** The segment after `await runtime.build`: with a plan and automatic run it starts `runtime.run`. */
  function AfterBuild(t: Task, planned: bool, stopped: bool): Task {
    if CancelSignalled(t) then FinishFromError(t)
    else if !planned then FinishWith(t, if stopped then Cancelled else Failed)
    else if !t.autoRun then FinishWith(t, Completed)
    else
      match TransitionPhase(t, Run)
      case None => FinishFromError(t)
      case Some(u) => if CancelSignalled(u) then FinishFromError(u) else u.(at := AwaitRun, runStarted := true)
  }

  /** The segment after `await runtime.run`. */
  function AfterRun(t: Task, ok: bool): Task {
    if CancelSignalled(t) then FinishFromError(t) else FinishWith(t, if ok then Completed else Failed)
  }

  function NewTask(autoRun: bool): Task {
    Task(Running, Build, false, false, autoRun, AwaitBuild, false)
  }

  /** Asking is refused to a task that is neither running nor already waiting for the same kind of answer. */
  predicate AskRefused(session: Session, t: TaskId, k: Kind) {
    t in session.tasks && session.tasks[t].status != Running && session.tasks[t].status != WaitingStatus(k)
  }

  /**
   * The request enters both tables before the status change. A refused change throws inside the promise's
   * executor: the waiter is rejected there and then, and both tables keep the request.
   */
  function Ask(st: State, s: SessionId, t: TaskId, r: RequestId, k: Kind): State
    requires s in st.objects
  {
    var session := st.objects[s];
    var listed := WithTable(session, k, Table(session, k)[r := t]);
    var asked := st.(pending := st.pending[r := Pending(s, k)], issuer := st.issuer[r := s]);
    if t !in session.tasks then asked.(objects := st.objects[s := listed])
    else
      match TransitionStatus(session.tasks[t], WaitingStatus(k))
      case Some(u) => asked.(objects := st.objects[s := listed.(tasks := session.tasks[t := u])])
      case None =>
        asked.(objects := st.objects[s := listed], settled := st.settled + multiset{r}, refused := st.refused + {r})
  }

  datatype Reply = UnknownRequest | SessionNotFound | PendingRequestNotFound | Settled

  /** `dispatchClientResponse`: what the client answered does not influence the tables. */
  function Respond(st: State, r: RequestId): (State, Reply) {
    if r !in st.pending then (st, UnknownRequest)
    else
      var p := st.pending[r];
      var rest := st.(pending := st.pending - {r});
      if p.session !in st.open || p.session !in st.objects then (rest, SessionNotFound)
      else
        var session := st.objects[p.session];
        var table := Table(session, p.kind);
        if r !in table then (rest, PendingRequestNotFound)
        else
          var unlisted := WithTable(session, p.kind, table - {r});
          var t := table[r];
          var resumed :=
            if t in session.tasks && session.tasks[t].status == WaitingStatus(p.kind) then
              unlisted.(tasks := session.tasks[t := session.tasks[t].(status := Running)])
            else unlisted;
          (rest.(objects := st.objects[p.session := resumed], settled := st.settled + multiset{r}), Settled)
  }

  datatype CancelReply = NoSession | NoTask | NothingActive | Refused | Accepted

  /** The most recent task that is not finished. */
  function ActiveTask(session: Session): Option<TaskId> {
    LastActive(session, session.order)
  }

  function LastActive(session: Session, order: seq<TaskId>): Option<TaskId> {
    if order == [] then None
    else
      var t := order[|order| - 1];
      if t in session.tasks && !Terminal(session.tasks[t].status) then Some(t)
      else LastActive(session, order[..|order| - 1])
  }

  function Keep(table: map<RequestId, TaskId>, t: TaskId): map<RequestId, TaskId> {
    map r | r in table && table[r] != t :: table[r]
  }

  function Rejected(session: Session, t: TaskId): set<RequestId> {
    (set r | r in session.interactions && session.interactions[r] == t) +
    (set r | r in session.permissions && session.permissions[r] == t)
  }

  /** Aborts the task and rejects every request it waits for, in both places that list them. */
  function Stop(st: State, s: SessionId, session: Session, t: TaskId, task: Task): State {
    var after := session.(
      tasks := session.tasks[t := task.(aborted := true)],
      interactions := Keep(session.interactions, t),
      permissions := Keep(session.permissions, t));
    st.(objects := st.objects[s := after],
        pending := st.pending - Rejected(session, t),
        settled := st.settled + multiset(Rejected(session, t)))
  }

  function Cancel(st: State, s: SessionId, named: Option<TaskId>): (State, CancelReply) {
    if s !in st.open || s !in st.objects then (st, NoSession)
    else
      var session := st.objects[s];
      var chosen := if named.Some? then named else ActiveTask(session);
      match chosen
      case None => (st, NothingActive)
      case Some(t) =>
        if t !in session.tasks then (st, NoTask)
        else
          var marked := session.tasks[t].(cancellationRequested := true);
          match TransitionStatus(marked, CancelRequested)
          case None => (WithTask(st, s, t, marked), Refused)
          case Some(u) =>
            (Stop(st, s, session, t, u), Accepted)
  }

  /** Closing rejects every waiter but leaves the server's own table as it is. */
  function Close(st: State, s: SessionId): State {
    if s !in st.open || s !in st.objects then st
    else
      var session := st.objects[s];
      st.(open := st.open - {s}, settled := st.settled + multiset(session.interactions.Keys + session.permissions.Keys))
  }

  // ---- Runs -----------------------------------------------------------------------------

  datatype Event =
    | NewSession(s: SessionId)
    | Prompt(s: SessionId, t: TaskId, autoRun: bool)
    | BuildReturns(s: SessionId, t: TaskId, planned: bool, stopped: bool)
    | RunReturns(s: SessionId, t: TaskId, ok: bool)
    | RuntimeThrows(s: SessionId, t: TaskId)
    | AskClient(s: SessionId, t: TaskId, r: RequestId, kind: Kind)
    | ClientResponds(r: RequestId)
    | ClientCancels(s: SessionId, named: Option<TaskId>)
    | ClientCloses(s: SessionId)

  /** Ids are fresh, and a suspended prompt resumes only where it is suspended. */
  predicate Enabled(st: State, e: Event) {
    match e
    case NewSession(s) => s !in st.objects
    case Prompt(s, t, _) => s in st.open && s in st.objects && t !in st.objects[s].tasks
    case BuildReturns(s, t, _, _) => s in st.objects && t in st.objects[s].tasks &&
        st.objects[s].tasks[t].at == AwaitBuild
    case RunReturns(s, t, _) => s in st.objects && t in st.objects[s].tasks && st.objects[s].tasks[t].at == AwaitRun
    case RuntimeThrows(s, t) => s in st.objects && t in st.objects[s].tasks && st.objects[s].tasks[t].at != Finished
    case AskClient(s, _, r, _) => s in st.objects && r !in st.issuer
    case ClientResponds(_) => true
    case ClientCancels(_, _) => true
    case ClientCloses(_) => true
  }

  function Next(st: State, e: Event): State
    requires Enabled(st, e)
  {
    match e
    case NewSession(s) =>
      st.(objects := st.objects[s := Session(map[], [], map[], map[])], open := st.open + {s})
    case Prompt(s, t, autoRun) =>
      var made := WithTask(st, s, t, NewTask(autoRun));
      made.(objects := made.objects[s := made.objects[s].(order := made.objects[s].order + [t])])
    case BuildReturns(s, t, planned, stopped) => WithTask(st, s, t, AfterBuild(st.objects[s].tasks[t], planned,
        stopped))
    case RunReturns(s, t, ok) => WithTask(st, s, t, AfterRun(st.objects[s].tasks[t], ok))
    case RuntimeThrows(s, t) => WithTask(st, s, t, FinishFromError(st.objects[s].tasks[t]))
    case AskClient(s, t, r, k) => Ask(st, s, t, r, k)
    case ClientResponds(r) => Respond(st, r).0
    case ClientCancels(s, named) => Cancel(st, s, named).0
    case ClientCloses(s) => Close(st, s)
  }

  ghost predicate Legal(es: seq<Event>)
    decreases |es|, 0
  {
    es == [] || (Legal(es[..|es| - 1]) && Enabled(After(es[..|es| - 1]), es[|es| - 1]))
  }

  ghost function After(es: seq<Event>): State
    requires Legal(es)
    decreases |es|, 1
  {
    if es == [] then Init() else Next(After(es[..|es| - 1]), es[|es| - 1])
  }

  lemma {:induction false} LegalPrefix(es: seq<Event>, fs: seq<Event>)
    requires Legal(es + fs)
    ensures Legal(es)
    decreases |fs|
  {
    if fs == [] {
      assert es + fs == es;
    } else {
      assert (es + fs)[..|es + fs| - 1] == es + fs[..|fs| - 1];
      LegalPrefix(es, fs[..|fs| - 1]);
    }
  }

  // ---- The two tables -------------------------------------------------------------------

  /** For every open session the session's tables and the server's table list the same requests. */
  ghost predicate TablesAgree(st: State) {
    forall s, k, r :: s in st.open && s in st.objects ==>
      (r in Table(st.objects[s], k) <==> r in st.pending && st.pending[r] == Pending(s, k))
  }

  /** Ids stay with the session that issued them. */
  ghost predicate IdsOwned(st: State) {
    && st.open <= st.objects.Keys
    && st.refused <= st.issuer.Keys
    && (forall r :: r in st.issuer ==> st.issuer[r] in st.objects)
    && (forall s, k, r :: s in st.objects && r in Table(st.objects[s], k) ==> r in st.issuer && st.issuer[r] == s)
    && (forall r :: r in st.pending ==> r in st.issuer && st.issuer[r] == st.pending[r].session)
    && (forall r :: r in st.settled ==> r in st.issuer)
  }

  /** How often a waiter is settled before it leaves the tables: once if its asking was refused. */
  function Early(st: State, r: RequestId): nat {
    if r in st.refused then 1 else 0
  }

  /**
   * Leaving the tables settles a waiter once more. So in an open session a listed waiter has been settled
   * exactly as often as its asking was refused, and an unlisted one once more than that.
   */
  ghost predicate SettledOnce(st: State) {
    && (forall r :: Early(st, r) <= st.settled[r] <= Early(st, r) + 1)
    && (forall r :: r in st.issuer && st.issuer[r] in st.open ==>
          st.settled[r] == Early(st, r) + if r in st.pending then 0 else 1)
  }

  ghost predicate TableInv(st: State) {
    TablesAgree(st) && IdsOwned(st) && SettledOnce(st)
  }
}
