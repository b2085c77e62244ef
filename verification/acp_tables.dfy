/** What every run of the ACP server keeps: agreeing tables, waiters settled once, and final cancellation. */
module AcpRuns {
  import opened Basics
  import opened AcpProtocol

  // ---- The tables -----------------------------------------------------------------------

  /** Steps that touch neither table nor the bookkeeping of ids. */
  ghost predicate SameTables(a: State, b: State) {
    && a.open == b.open && a.pending == b.pending && a.issuer == b.issuer
    && a.settled == b.settled && a.refused == b.refused
    && a.objects.Keys == b.objects.Keys
    && forall s, k :: s in a.objects ==> Table(a.objects[s], k) == Table(b.objects[s], k)
  }

  lemma {:induction false} SameTablesKeep(a: State, b: State)
    requires TableInv(a) && SameTables(a, b)
    ensures TableInv(b)
  {
  }

  /** `b` has the tables of `a`, except that table `k` of session `s` is now `table`. */
  ghost predicate OneTable(a: State, b: State, s: SessionId, k: Kind, table: map<RequestId, TaskId>) {
    && a.objects.Keys == b.objects.Keys && s in a.objects && a.open == b.open
    && Table(b.objects[s], k) == table
    && forall q, j :: q in a.objects && (q != s || j != k) ==> Table(b.objects[q], j) == Table(a.objects[q], j)
  }

  /** A fresh request listed in both tables, and settled already if its asking is refused. */
  ghost predicate Listed(a: State, b: State, s: SessionId, t: TaskId, r: RequestId, k: Kind, refused: bool) {
    && s in a.objects && r !in a.issuer
    && OneTable(a, b, s, k, Table(a.objects[s], k)[r := t])
    && b.pending == a.pending[r := Pending(s, k)] && b.issuer == a.issuer[r := s]
    && b.settled == (if refused then a.settled + multiset{r} else a.settled)
    && b.refused == (if refused then a.refused + {r} else a.refused)
  }

  lemma {:induction false} ListingAgrees(
    a: State, b: State, s: SessionId, t: TaskId, r: RequestId, k: Kind, refused: bool)
    requires TablesAgree(a) && IdsOwned(a) && Listed(a, b, s, t, r, k, refused)
    ensures TablesAgree(b)
  {
    forall q, j, x | q in b.open && q in b.objects
      ensures x in Table(b.objects[q], j) <==> x in b.pending && b.pending[x] == Pending(q, j)
    {
      assert q in a.open && q in a.objects;
      assert r !in Table(a.objects[q], j);
      assert x in Table(a.objects[q], j) <==> x in a.pending && a.pending[x] == Pending(q, j);
    }
  }

  lemma {:induction false} ListingOwned(
    a: State, b: State, s: SessionId, t: TaskId, r: RequestId, k: Kind, refused: bool)
    requires IdsOwned(a) && Listed(a, b, s, t, r, k, refused)
    ensures IdsOwned(b)
  {
    forall q, j, x | q in b.objects && x in Table(b.objects[q], j) ensures x in b.issuer && b.issuer[x] == q {
      if x != r { assert x in Table(a.objects[q], j); }
    }
    assert forall x :: x in b.settled ==> x in a.settled || x == r;
  }

  lemma {:induction false} ListingSettled(
    a: State, b: State, s: SessionId, t: TaskId, r: RequestId, k: Kind, refused: bool)
    requires IdsOwned(a) && SettledOnce(a) && Listed(a, b, s, t, r, k, refused)
    ensures SettledOnce(b)
  {
    assert r !in a.settled && r !in a.refused;
    forall x | x != r ensures b.settled[x] == a.settled[x] && Early(b, x) == Early(a, x) {}
  }

  lemma {:induction false} AskKeepsTables(st: State, s: SessionId, t: TaskId, r: RequestId, k: Kind)
    requires TableInv(st) && s in st.objects && r !in st.issuer
    ensures TableInv(Ask(st, s, t, r, k))
  {
    var refused := AskRefused(st.objects[s], t, k);
    AskLists(st, s, t, r, k);
    ListingAgrees(st, Ask(st, s, t, r, k), s, t, r, k, refused);
    ListingOwned(st, Ask(st, s, t, r, k), s, t, r, k, refused);
    ListingSettled(st, Ask(st, s, t, r, k), s, t, r, k, refused);
  }

  /** The refusal is decided by the task's status at the asking. */
  lemma {:induction false} AskLists(st: State, s: SessionId, t: TaskId, r: RequestId, k: Kind)
    requires s in st.objects && r !in st.issuer
    ensures Listed(st, Ask(st, s, t, r, k), s, t, r, k, AskRefused(st.objects[s], t, k))
  {
    AskTables(st, s, t, r, k);
    RefusedMeansRefused(st.objects[s], t, k);
  }

  lemma {:induction false} RefusedMeansRefused(session: Session, t: TaskId, k: Kind)
    ensures AskRefused(session, t, k) <==>
            t in session.tasks && TransitionStatus(session.tasks[t], WaitingStatus(k)) == None
  {
  }

  lemma {:induction false} AskTables(st: State, s: SessionId, t: TaskId, r: RequestId, k: Kind)
    requires s in st.objects
    ensures OneTable(st, Ask(st, s, t, r, k), s, k, Table(st.objects[s], k)[r := t])
  {
    TableUpdate(st.objects[s], k, Table(st.objects[s], k)[r := t]);
  }

  lemma {:induction false} TableUpdate(session: Session, k: Kind, table: map<RequestId, TaskId>)
    ensures Table(WithTable(session, k, table), k) == table
    ensures forall j :: j != k ==> Table(WithTable(session, k, table), j) == Table(session, j)
  {
  }

  /** One more settlement of a listed request that both tables drop. */
  ghost predicate Dropped(a: State, b: State, gone: set<RequestId>) {
    && b.pending == a.pending - gone && b.issuer == a.issuer && b.refused == a.refused && b.open <= a.open
    && b.settled == a.settled + multiset(gone)
    && forall r :: r in gone ==> r in a.issuer && a.settled[r] == Early(a, r)
  }

  lemma {:induction false} DroppingSettled(a: State, b: State, gone: set<RequestId>)
    requires SettledOnce(a) && Dropped(a, b, gone)
    requires forall r :: r in gone && a.issuer[r] in b.open ==> r in a.pending
    ensures SettledOnce(b)
  {
    forall r ensures Early(b, r) == Early(a, r) && b.settled[r] == a.settled[r] + if r in gone then 1 else 0 {}
    forall r | r in b.issuer && b.issuer[r] in b.open
      ensures b.settled[r] == Early(b, r) + if r in b.pending then 0 else 1
    {
      assert a.settled[r] == Early(a, r) + if r in a.pending then 0 else 1;
    }
  }

  /** A request of an open session taken from both tables and settled. */
  lemma {:induction false} SettlingKeeps(a: State, b: State, r: RequestId)
    requires TableInv(a) && r in a.pending && a.pending[r].session in a.open && a.pending[r].session in a.objects
    requires
      var (s, k) := (a.pending[r].session, a.pending[r].kind);
      OneTable(a, b, s, k, Table(a.objects[s], k) - {r})
    requires b.pending == a.pending - {r} && b.issuer == a.issuer && b.settled == a.settled + multiset{r}
    requires b.refused == a.refused
    ensures TableInv(b)
  {
    forall q, j, x | q in b.open && q in b.objects
      ensures x in Table(b.objects[q], j) <==> x in b.pending && b.pending[x] == Pending(q, j)
    {
      assert q in a.open && q in a.objects;
      assert x in Table(a.objects[q], j) <==> x in a.pending && a.pending[x] == Pending(q, j);
    }
    SettlingOwned(a, b, r);
    assert multiset{r} == multiset({r});
    DroppingSettled(a, b, {r});
  }

  lemma {:induction false} SettlingOwned(a: State, b: State, r: RequestId)
    requires IdsOwned(a) && r in a.pending
    requires
      var (s, k) := (a.pending[r].session, a.pending[r].kind);
      OneTable(a, b, s, k, Table(a.objects[s], k) - {r})
    requires b.pending == a.pending - {r} && b.issuer == a.issuer && b.settled == a.settled + multiset{r}
    requires b.refused == a.refused
    ensures IdsOwned(b)
  {
    hide Table;
    forall q, j, x | q in b.objects && x in Table(b.objects[q], j) ensures x in b.issuer && b.issuer[x] == q {
      assert x in Table(a.objects[q], j);
    }
  }

  /** A response for a closed session only drops the server's entry. */
  lemma {:induction false} DroppingKeeps(a: State, r: RequestId)
    requires TableInv(a) && r in a.pending && a.pending[r].session !in a.open
    ensures TableInv(a.(pending := a.pending - {r}))
  {
  }

  lemma {:induction false} RespondKeepsTables(st: State, r: RequestId)
    requires TableInv(st)
    ensures TableInv(Respond(st, r).0)
  {
    if r in st.pending {
      var p := st.pending[r];
      if p.session in st.open {
        assert r in Table(st.objects[p.session], p.kind);
        SettlingKeeps(st, Respond(st, r).0, r);
      } else {
        DroppingKeeps(st, r);
      }
    }
  }

  /** Both tables of session `s` lose the requests of task `t`, and the server's table loses the same ids. */
  ghost predicate TaskDropped(a: State, b: State, s: SessionId, t: TaskId) {
    && s in a.open && s in a.objects && a.objects.Keys == b.objects.Keys && a.open == b.open
    && a.issuer == b.issuer && a.refused == b.refused
    && (forall j :: Table(b.objects[s], j) == Keep(Table(a.objects[s], j), t))
    && (forall q, j :: q in a.objects && q != s ==> Table(b.objects[q], j) == Table(a.objects[q], j))
    && b.pending == a.pending - Rejected(a.objects[s], t)
    && b.settled == a.settled + multiset(Rejected(a.objects[s], t))
  }

  lemma {:induction false} RejectingKeeps(a: State, b: State, s: SessionId, t: TaskId)
    requires TableInv(a) && TaskDropped(a, b, s, t)
    ensures TableInv(b)
  {
    var gone := Rejected(a.objects[s], t);
    forall r | r in gone
      ensures r in a.pending && r in a.issuer && a.settled[r] == Early(a, r)
    {
      RejectedListed(a, s, t, r);
    }
    AgreeAfter(a, b, s, t);
    DroppingSettled(a, b, gone);
    OwnedAfter(a, b, s, t);
  }

  lemma {:induction false} AgreeAfter(a: State, b: State, s: SessionId, t: TaskId)
    requires TableInv(a) && TaskDropped(a, b, s, t)
    ensures TablesAgree(b)
  {
    forall q, j, x | q in b.open && q in b.objects
      ensures x in Table(b.objects[q], j) <==> x in b.pending && b.pending[x] == Pending(q, j)
    {
      RejectedApart(a, s, t, q, j, x);
    }
  }

  lemma {:induction false} RejectedListed(a: State, s: SessionId, t: TaskId, r: RequestId)
    requires TableInv(a) && s in a.open && r in Rejected(a.objects[s], t)
    ensures r in a.pending && a.pending[r].session == s && r in a.issuer && a.settled[r] == Early(a, r)
  {
    assert r in Table(a.objects[s], Interaction) || r in Table(a.objects[s], Permission);
    assert r in a.issuer;
  }

  /** A listed request is rejected exactly when it belongs to the task. */
  lemma {:induction false} RejectedApart(a: State, s: SessionId, t: TaskId, q: SessionId, j: Kind, x: RequestId)
    requires TableInv(a) && s in a.open && q in a.open
    ensures x in Table(a.objects[q], j) <==> x in a.pending && a.pending[x] == Pending(q, j)
    ensures x in Table(a.objects[q], j) ==>
            (x in Rejected(a.objects[s], t) <==> q == s && Table(a.objects[q], j)[x] == t)
  {
    if x in Rejected(a.objects[s], t) {
      assert x in Table(a.objects[s], Interaction) ==> a.pending[x] == Pending(s, Interaction);
      assert x in Table(a.objects[s], Permission) ==> a.pending[x] == Pending(s, Permission);
    }
  }

  lemma {:induction false} OwnedAfter(a: State, b: State, s: SessionId, t: TaskId)
    requires IdsOwned(a) && TaskDropped(a, b, s, t)
    ensures IdsOwned(b)
  {
    hide Table, Rejected;
    assert b.issuer == a.issuer;
    forall q, j, r | q in b.objects && r in Table(b.objects[q], j) ensures r in b.issuer && b.issuer[r] == q {
      DroppedListed(a, b, s, t, q, j, r);
    }
    RejectedOwned(a, s, t);
  }

  lemma {:induction false} DroppedListed(
    a: State, b: State, s: SessionId, t: TaskId, q: SessionId, j: Kind, r: RequestId)
    requires TaskDropped(a, b, s, t) && q in b.objects && r in Table(b.objects[q], j)
    ensures q in a.objects && r in Table(a.objects[q], j)
  {
  }

  lemma {:induction false} RejectedOwned(a: State, s: SessionId, t: TaskId)
    requires IdsOwned(a) && s in a.objects
    ensures forall r :: r in Rejected(a.objects[s], t) ==> r in a.issuer
  {
    forall r | r in Rejected(a.objects[s], t) ensures r in a.issuer {
      assert r in Table(a.objects[s], Interaction) || r in Table(a.objects[s], Permission);
    }
  }

  lemma {:induction false} CancelKeepsTables(st: State, s: SessionId, named: Option<TaskId>)
    requires TableInv(st)
    ensures TableInv(Cancel(st, s, named).0)
  {
    if Cancel(st, s, named).1 == Accepted {
      CancelRejects(st, s, named);
    } else if Cancel(st, s, named).1 == Refused {
      CancelRefused(st, s, named);
    }
  }

  lemma {:induction false} CancelRejects(st: State, s: SessionId, named: Option<TaskId>)
    requires TableInv(st) && Cancel(st, s, named).1 == Accepted
    ensures TableInv(Cancel(st, s, named).0)
  {
    var v := Cancel(st, s, named).0;
    var t := if named.Some? then named.value else ActiveTask(st.objects[s]).value;
    assert v.pending == st.pending - Rejected(st.objects[s], t);
    assert v.settled == st.settled + multiset(Rejected(st.objects[s], t));
    RejectingKeeps(st, v, s, t);
  }

  lemma {:induction false} CancelRefused(st: State, s: SessionId, named: Option<TaskId>)
    requires TableInv(st) && Cancel(st, s, named).1 == Refused
    ensures TableInv(Cancel(st, s, named).0)
  {
    assert SameTables(st, Cancel(st, s, named).0);
    SameTablesKeep(st, Cancel(st, s, named).0);
  }

  lemma {:induction false} CloseKeepsTables(st: State, s: SessionId)
    requires TableInv(st)
    ensures TableInv(Close(st, s))
  {
    if s in st.open {
      var ids := st.objects[s].interactions.Keys + st.objects[s].permissions.Keys;
      forall r | r in ids ensures r in st.issuer && st.issuer[r] == s && st.settled[r] == Early(st, r) {
        assert r in Table(st.objects[s], Interaction) || r in Table(st.objects[s], Permission);
      }
      ClosingKeeps(st, s, ids);
    }
  }

  lemma {:induction false} ClosingKeeps(st: State, s: SessionId, ids: set<RequestId>)
    requires TableInv(st) && s in st.open
    requires forall r :: r in ids ==> r in st.issuer && st.issuer[r] == s && st.settled[r] == Early(st, r)
    ensures TableInv(st.(open := st.open - {s}, settled := st.settled + multiset(ids)))
  {
    var b := st.(open := st.open - {s}, settled := st.settled + multiset(ids));
    ClosingListed(st, b);
    assert SettledOnce(b) by {
      forall r ensures Early(b, r) == Early(st, r) && b.settled[r] == st.settled[r] + if r in ids then 1 else 0 {}
    }
  }

  /** Fewer open sessions, nothing else changed but who is settled. */
  lemma {:induction false} ClosingListed(a: State, b: State)
    requires TablesAgree(a) && IdsOwned(a) && b.open <= a.open && b == a.(open := b.open, settled := b.settled)
    requires forall r :: r in b.settled ==> r in a.issuer
    ensures TablesAgree(b) && IdsOwned(b)
  {
    hide Table;
  }

  /** The segments of a prompt change its own task only. */
  lemma {:induction false} SegmentKeepsTables(st: State, s: SessionId, t: TaskId, task: Task)
    requires TableInv(st) && s in st.objects
    ensures TableInv(WithTask(st, s, t, task))
  {
    assert SameTables(st, WithTask(st, s, t, task));
    SameTablesKeep(st, WithTask(st, s, t, task));
  }

  lemma {:induction false} OpeningKeeps(st: State, s: SessionId)
    requires TableInv(st) && s !in st.objects
    ensures TableInv(Next(st, NewSession(s)))
  {
    var b := Next(st, NewSession(s));
    forall q, j, x | q in b.open && q in b.objects
      ensures x in Table(b.objects[q], j) <==> x in b.pending && b.pending[x] == Pending(q, j)
    {
      if q == s { assert x in st.pending ==> st.pending[x].session in st.objects; }
    }
    OpeningOwned(st, s);
    OpeningSettled(st, s);
  }

  lemma {:induction false} OpeningOwned(st: State, s: SessionId)
    requires IdsOwned(st) && s !in st.objects
    ensures IdsOwned(Next(st, NewSession(s)))
  {
    var b := Next(st, NewSession(s));
    forall q, j, x | q in b.objects && x in Table(b.objects[q], j) ensures x in b.issuer && b.issuer[x] == q {
      assert q != s;
    }
  }

  lemma {:induction false} OpeningSettled(st: State, s: SessionId)
    requires IdsOwned(st) && SettledOnce(st) && s !in st.objects
    ensures SettledOnce(Next(st, NewSession(s)))
  {
    var b := Next(st, NewSession(s));
    forall r ensures Early(b, r) == Early(st, r) {}
  }

  lemma {:induction false} PromptKeeps(st: State, s: SessionId, autoRun: bool, t: TaskId)
    requires TableInv(st) && s in st.open && s in st.objects && t !in st.objects[s].tasks
    ensures TableInv(Next(st, Prompt(s, t, autoRun)))
  {
    assert SameTables(st, Next(st, Prompt(s, t, autoRun)));
    SameTablesKeep(st, Next(st, Prompt(s, t, autoRun)));
  }

  lemma {:induction false} StepKeepsTables(st: State, e: Event)
    requires TableInv(st) && Enabled(st, e)
    ensures TableInv(Next(st, e))
  {
    match e
    case NewSession(s) => OpeningKeeps(st, s);
    case Prompt(s, t, a) => PromptKeeps(st, s, a, t);
    case BuildReturns(s, t, p, q) => SegmentKeepsTables(st, s, t, AfterBuild(st.objects[s].tasks[t], p, q));
    case RunReturns(s, t, ok) => SegmentKeepsTables(st, s, t, AfterRun(st.objects[s].tasks[t], ok));
    case RuntimeThrows(s, t) => SegmentKeepsTables(st, s, t, FinishFromError(st.objects[s].tasks[t]));
    case AskClient(s, t, r, k) => AskKeepsTables(st, s, t, r, k);
    case ClientResponds(r) => RespondKeepsTables(st, r);
    case ClientCancels(s, named) => CancelKeepsTables(st, s, named);
    case ClientCloses(s) => CloseKeepsTables(st, s);
  }

  /** In every reachable state the tables agree, and waiters are settled as often as `SettledOnce` says. */
  lemma {:induction false} TablesAlwaysAgree(es: seq<Event>)
    requires Legal(es)
    ensures TableInv(After(es))
    decreases |es|
  {
    if es != [] {
      TablesAlwaysAgree(es[..|es| - 1]);
      StepKeepsTables(After(es[..|es| - 1]), es[|es| - 1]);
    }
  }

  /**
   * An answer to a listed request of an open session reaches its waiter; after close it reports a missing
   * session. It is the waiter's first settlement exactly when the asking was not refused.
   */
  lemma {:induction false} ResponseOutcome(es: seq<Event>, r: RequestId)
    requires Legal(es)
    ensures
      var st := After(es);
      var (after, reply) := Respond(st, r);
      && reply != PendingRequestNotFound
      && (reply == UnknownRequest <==> r !in st.pending)
      && (reply == Settled <==> r in st.pending && st.pending[r].session in st.open)
      && (reply == Settled ==>
            && st.settled[r] == Early(st, r) && after.settled[r] == Early(st, r) + 1 && r !in after.pending
            && (st.settled[r] == 0 <==> r !in st.refused))
  {
    TablesAlwaysAgree(es);
    var st := After(es);
    if r in st.pending && st.pending[r].session in st.open {
      assert r in Table(st.objects[st.pending[r].session], st.pending[r].kind);
    }
  }

  /** No event but its own asking decides whether a request was refused. */
  lemma {:induction false} RefusedStays(es: seq<Event>, fs: seq<Event>, r: RequestId)
    requires Legal(es + fs) && Legal(es) && r in After(es).issuer
    ensures r in After(es + fs).issuer && After(es + fs).issuer[r] == After(es).issuer[r]
    ensures r in After(es + fs).refused <==> r in After(es).refused
    decreases |fs|
  {
    if fs == [] {
      assert es + fs == es;
    } else {
      var mid := es + fs[..|fs| - 1];
      assert (es + fs)[..|es + fs| - 1] == mid;
      RefusedStays(es, fs[..|fs| - 1], r);
      StepKeepsRefused(After(mid), fs[|fs| - 1], r);
    }
  }

  lemma {:induction false} StepKeepsRefused(st: State, e: Event, r: RequestId)
    requires Enabled(st, e) && r in st.issuer
    ensures r in Next(st, e).issuer && Next(st, e).issuer[r] == st.issuer[r]
    ensures r in Next(st, e).refused <==> r in st.refused
  {
    match e
    case AskClient(s, t, q, k) => AskLists(st, s, t, q, k);
    case _ =>
  }

  /**
   * The exact condition: at any later time a waiter of an open session is listed and yet settled already if
   * and only if the task's status refused its asking, which the caller can tell before asking.
   */
  lemma {:induction false} ListedYetSettledIffRefused(
    es: seq<Event>, fs: seq<Event>, s: SessionId, t: TaskId, r: RequestId, k: Kind)
    requires Legal(es) && Legal(es + [AskClient(s, t, r, k)]) && Legal(es + [AskClient(s, t, r, k)] + fs)
    requires s in After(es).objects && r !in After(es).issuer
    requires s in After(es + [AskClient(s, t, r, k)] + fs).open && r in After(es + [AskClient(s, t, r, k)] + fs).pending
    ensures r in After(es + [AskClient(s, t, r, k)] + fs).settled <==> AskRefused(After(es).objects[s], t, k)
  {
    var asked := es + [AskClient(s, t, r, k)];
    assert asked[..|asked| - 1] == es;
    AskLists(After(es), s, t, r, k);
    TablesAlwaysAgree(es);
    RefusedStays(asked, fs, r);
    TablesAlwaysAgree(asked + fs);
  }

  /** Such a waiter exists: a task whose cancellation was accepted asks its build question. */
  lemma {:induction false} RefusedWitness(s: SessionId, t: TaskId, r: RequestId)
    ensures
      var es := [NewSession(s), Prompt(s, t, true), ClientCancels(s, Some(t)), AskClient(s, t, r, Interaction)];
      Legal(es) && s in After(es).open && r in After(es).pending && After(es).settled[r] == 1
  {
    var a, b, c, d := NewSession(s), Prompt(s, t, true), ClientCancels(s, Some(t)), AskClient(s, t, r, Interaction);
    Extends([], a);
    Extends([a], b);
    assert [a, b] == [a] + [b];
    Extends([a, b], c);
    assert [a, b, c] == [a, b] + [c];
    Extends([a, b, c], d);
    assert [a, b, c, d] == [a, b, c] + [d];
  }

  lemma {:induction false} Extends(es: seq<Event>, e: Event)
    requires Legal(es) && Enabled(After(es), e)
    ensures Legal(es + [e]) && After(es + [e]) == Next(After(es), e)
  {
    assert (es + [e])[..|es|] == es;
  }

  /** A session closed over a pending request: the late answer finds the server's entry but no session. */
  lemma {:induction false} LateAnswerWitness(s: SessionId, t: TaskId, r: RequestId)
    ensures
      var es := [NewSession(s), Prompt(s, t, true), AskClient(s, t, r, Interaction), ClientCloses(s)];
      Legal(es) && r in After(es).pending && After(es).settled[r] == 1 && Respond(After(es), r).1 == SessionNotFound
  {
    var a, b, c, d := NewSession(s), Prompt(s, t, true), AskClient(s, t, r, Interaction), ClientCloses(s);
    Extends([], a);
    Extends([a], b);
    assert [a, b] == [a] + [b];
    Extends([a, b], c);
    assert [a, b, c] == [a, b] + [c];
    Extends([a, b, c], d);
    assert [a, b, c, d] == [a, b, c] + [d];
  }

  lemma {:induction false} NeverListedAgain(es: seq<Event>, fs: seq<Event>, r: RequestId)
    requires Legal(es + fs) && Legal(es)
    requires r in After(es).issuer && r !in After(es).pending
    ensures r in After(es + fs).issuer && r !in After(es + fs).pending
    ensures After(es).settled[r] <= After(es + fs).settled[r]
    decreases |fs|
  {
    if fs == [] {
      assert es + fs == es;
    } else {
      var mid := es + fs[..|fs| - 1];
      assert (es + fs)[..|es + fs| - 1] == mid;
      NeverListedAgain(es, fs[..|fs| - 1], r);
      StepKeepsSettled(After(mid), fs[|fs| - 1], r);
    }
  }

  lemma {:induction false} SettledBounds(st: State, r: RequestId)
    requires TableInv(st) && r in st.issuer
    ensures Early(st, r) <= st.settled[r] <= Early(st, r) + 1
    ensures r !in st.pending && st.issuer[r] in st.open ==> st.settled[r] == Early(st, r) + 1
  {
  }

  /** A waiter that has left the tables never comes back, and is not settled more often than its asking allows. */
  lemma {:induction false} SettledStays(es: seq<Event>, fs: seq<Event>, r: RequestId)
    requires Legal(es + fs) && Legal(es)
    requires r in After(es).issuer && r !in After(es).pending
    ensures r in After(es + fs).issuer && r !in After(es + fs).pending
    ensures After(es).settled[r] <= After(es + fs).settled[r] <= Early(After(es), r) + 1
    ensures After(es).issuer[r] in After(es).open ==> After(es + fs).settled[r] == After(es).settled[r]
  {
    TablesAlwaysAgree(es);
    TablesAlwaysAgree(es + fs);
    RefusedStays(es, fs, r);
    NeverListedAgain(es, fs, r);
    SettledBounds(After(es), r);
    SettledBounds(After(es + fs), r);
  }

  lemma {:induction false} StepKeepsSettled(st: State, e: Event, r: RequestId)
    requires Enabled(st, e) && r in st.issuer && r !in st.pending
    ensures r in Next(st, e).issuer && r !in Next(st, e).pending && st.settled[r] <= Next(st, e).settled[r]
  {
    hide Terminal;
  }

  // ---- Tasks and cancellation -----------------------------------------------------------

  /** Where the coroutine is decides the phase and which statuses are possible. */
  ghost predicate TaskInv(t: Task) {
    match t.at
    case AwaitBuild => t.phase == Build && Live(t) && !t.runStarted
    case AwaitRun => t.phase == Run && Live(t) && t.runStarted
    case Finished => t.phase == Complete && Terminal(t.status)
  }

  ghost predicate Live(t: Task) {
    && !Terminal(t.status)
    && (t.cancellationRequested <==> t.status == CancelRequested)
    && (t.aborted <==> t.status == CancelRequested)
  }

  ghost predicate TasksInv(st: State) {
    forall s, t :: s in st.objects && t in st.objects[s].tasks ==> TaskInv(st.objects[s].tasks[t])
  }

  /** A task whose cancellation was accepted: never running, waiting or completed again. */
  ghost predicate CancelHolds(t: Task) {
    && t.cancellationRequested && t.aborted
    && (t.status == CancelRequested || t.status == Cancelled)
    && (t.at == Finished ==> t.status == Cancelled && t.phase == Complete)
  }

  /** How one event may change a task. */
  ghost predicate Evolves(u: Task, v: Task) {
    && (TaskInv(u) ==> TaskInv(v))
    && (TaskInv(u) && CancelHolds(u) ==> CancelHolds(v) && v.runStarted == u.runStarted)
  }

  lemma {:induction false} SegmentsEvolve(t: Task)
    ensures t.at != Finished ==> Evolves(t, FinishFromError(t))
    ensures t.at == AwaitBuild ==> forall planned, stopped :: Evolves(t, AfterBuild(t, planned, stopped))
    ensures t.at == AwaitRun ==> forall ok :: Evolves(t, AfterRun(t, ok))
  {
  }

  lemma {:induction false} StatusEvolves(t: Task, k: Kind)
    ensures TransitionStatus(t, WaitingStatus(k)).Some? ==> Evolves(t, TransitionStatus(t, WaitingStatus(k)).value)
    ensures t.status == WaitingStatus(k) ==> Evolves(t, t.(status := Running))
    ensures
      var marked := t.(cancellationRequested := true);
      match TransitionStatus(marked, CancelRequested)
      case Some(u) => Evolves(t, u.(aborted := true))
      case None => Evolves(t, marked)
  {
  }

  ghost predicate HasTask(st: State, s: SessionId, t: TaskId) {
    s in st.objects && t in st.objects[s].tasks
  }

  ghost predicate EvolvesAt(a: State, b: State, s: SessionId, t: TaskId)
    requires HasTask(a, s, t)
  {
    HasTask(b, s, t) && Evolves(a.objects[s].tasks[t], b.objects[s].tasks[t])
  }

  lemma {:induction false} AskEvolves(
    st: State, s: SessionId, t: TaskId, r: RequestId, k: Kind, q: SessionId, x: TaskId)
    requires s in st.objects && HasTask(st, q, x)
    ensures EvolvesAt(st, Ask(st, s, t, r, k), q, x)
  {
    StatusEvolves(st.objects[q].tasks[x], k);
  }

  lemma {:induction false} RespondEvolves(st: State, r: RequestId, q: SessionId, x: TaskId)
    requires HasTask(st, q, x)
    ensures EvolvesAt(st, Respond(st, r).0, q, x)
  {
    if r in st.pending { StatusEvolves(st.objects[q].tasks[x], st.pending[r].kind); }
  }

  lemma {:induction false} CancelEvolves(st: State, s: SessionId, named: Option<TaskId>, q: SessionId, x: TaskId)
    requires HasTask(st, q, x)
    ensures EvolvesAt(st, Cancel(st, s, named).0, q, x)
  {
    var u := st.objects[q].tasks[x];
    StatusEvolves(u, Interaction);
    CancelChanges(st, s, named, q, x);
  }

  /** Cancelling leaves a task alone, marks it, or marks it and moves it to cancel-requested. */
  lemma {:induction false} CancelChanges(st: State, s: SessionId, named: Option<TaskId>, q: SessionId, x: TaskId)
    requires HasTask(st, q, x)
    ensures
      var b := Cancel(st, s, named).0;
      var u := st.objects[q].tasks[x];
      var marked := u.(cancellationRequested := true);
      HasTask(b, q, x) &&
      (b.objects[q].tasks[x] == u ||
       b.objects[q].tasks[x] ==
         match TransitionStatus(marked, CancelRequested) { case Some(v) => v.(aborted := true) case None => marked })
  {
    hide TransitionStatus;
  }

  lemma {:induction false} StepEvolves(st: State, e: Event, q: SessionId, x: TaskId)
    requires Enabled(st, e) && HasTask(st, q, x)
    ensures EvolvesAt(st, Next(st, e), q, x)
  {
    match e
    case NewSession(s) =>
    case Prompt(s, t, a) =>
    case BuildReturns(s, t, p, b) => SegmentsEvolve(st.objects[s].tasks[t]);
    case RunReturns(s, t, ok) => SegmentsEvolve(st.objects[s].tasks[t]);
    case RuntimeThrows(s, t) => SegmentsEvolve(st.objects[s].tasks[t]);
    case AskClient(s, t, r, k) => AskEvolves(st, s, t, r, k, q, x);
    case ClientResponds(r) => RespondEvolves(st, r, q, x);
    case ClientCancels(s, named) => CancelEvolves(st, s, named, q, x);
    case ClientCloses(s) =>
  }

  /** Only a prompt makes a task. */
  lemma {:induction false} OnlyPromptCreates(st: State, e: Event, q: SessionId, x: TaskId)
    requires Enabled(st, e) && HasTask(Next(st, e), q, x) && !HasTask(st, q, x)
    ensures e.Prompt? && Next(st, e).objects[q].tasks[x] == NewTask(e.autoRun)
  {
  }

  lemma {:induction false} StepKeepsTasks(st: State, e: Event)
    requires TasksInv(st) && Enabled(st, e)
    ensures TasksInv(Next(st, e))
  {
    var v := Next(st, e);
    forall q, x | q in v.objects && x in v.objects[q].tasks ensures TaskInv(v.objects[q].tasks[x]) {
      if HasTask(st, q, x) { StepEvolves(st, e, q, x); } else { OnlyPromptCreates(st, e, q, x); }
    }
  }

  lemma {:induction false} TasksAlwaysConsistent(es: seq<Event>)
    requires Legal(es)
    ensures TasksInv(After(es))
    decreases |es|
  {
    if es != [] {
      var before := es[..|es| - 1];
      TasksAlwaysConsistent(before);
      StepKeepsTasks(After(before), es[|es| - 1]);
    }
  }

  lemma {:induction false} AcceptedMarks(st: State, s: SessionId, named: Option<TaskId>)
    requires TasksInv(st) && IdsOwned(st) && Cancel(st, s, named).1 == Accepted
    ensures
      var t := if named.Some? then named.value else ActiveTask(st.objects[s]).value;
      var v := Cancel(st, s, named).0;
      s in v.objects && t in v.objects[s].tasks && CancelHolds(v.objects[s].tasks[t]) &&
      v.objects[s].tasks[t].runStarted == st.objects[s].tasks[t].runStarted &&
      forall r, k :: r in Table(v.objects[s], k) ==> Table(v.objects[s], k)[r] != t
  {
  }

  /**
   * Cancellation is final: in every continuation the task stays cancelled, `runtime.run` is not started, and a
   * finished prompt ends cancelled and complete.
   */
  lemma {:induction false} CancellationIsFinal(es: seq<Event>, fs: seq<Event>, s: SessionId, t: TaskId)
    requires Legal(es + fs) && Legal(es)
    requires s in After(es).objects && t in After(es).objects[s].tasks && CancelHolds(After(es).objects[s].tasks[t])
    ensures
      var v := After(es + fs);
      && s in v.objects && t in v.objects[s].tasks && CancelHolds(v.objects[s].tasks[t])
      && v.objects[s].tasks[t].runStarted == After(es).objects[s].tasks[t].runStarted
    decreases |fs|
  {
    if fs == [] {
      assert es + fs == es;
    } else {
      var mid := es + fs[..|fs| - 1];
      assert (es + fs)[..|es + fs| - 1] == mid;
      CancellationIsFinal(es, fs[..|fs| - 1], s, t);
      TasksAlwaysConsistent(mid);
      StepEvolves(After(mid), fs[|fs| - 1], s, t);
    }
  }

  /** A cancellation request is accepted exactly when it names, or finds, a task that has not finished. */
  lemma {:induction false} CancelAcceptedIff(es: seq<Event>, s: SessionId, named: Option<TaskId>)
    requires Legal(es) && s in After(es).open && s in After(es).objects
    ensures
      var st := After(es);
      var chosen := if named.Some? then named else ActiveTask(st.objects[s]);
      Cancel(st, s, named).1 == Accepted <==>
        (chosen.Some? && chosen.value in st.objects[s].tasks && st.objects[s].tasks[chosen.value].at != Finished)
  {
    TasksAlwaysConsistent(es);
  }

  /** The task a cancellation request is about. */
  function Chosen(st: State, s: SessionId, named: Option<TaskId>): Option<TaskId> {
    if named.Some? || s !in st.objects then named else ActiveTask(st.objects[s])
  }

  /** A cancellation that is accepted at some point of a run is final in every continuation. */
  lemma {:induction false} AcceptedCancellationIsFinal(
    es: seq<Event>, s: SessionId, named: Option<TaskId>, fs: seq<Event>)
    requires Legal(es) && Legal(es + [ClientCancels(s, named)]) && Legal(es + [ClientCancels(s, named)] + fs)
    requires Cancel(After(es), s, named).1 == Accepted
    ensures
      var t := Chosen(After(es), s, named);
      var v := After(es + [ClientCancels(s, named)] + fs);
      && t.Some? && s in v.objects && t.value in v.objects[s].tasks && CancelHolds(v.objects[s].tasks[t.value])
      && t.value in After(es).objects[s].tasks
      && v.objects[s].tasks[t.value].runStarted == After(es).objects[s].tasks[t.value].runStarted
  {
    var cancelled := es + [ClientCancels(s, named)];
    assert cancelled[..|cancelled| - 1] == es;
    TablesAlwaysAgree(es);
    TasksAlwaysConsistent(es);
    AcceptedMarks(After(es), s, named);
    CancellationIsFinal(cancelled, fs, s, Chosen(After(es), s, named).value);
  }
}
