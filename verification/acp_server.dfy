/** The server object: one method per atomic segment, tied to the protocol's transition functions. */
module AcpServerObject {
  import opened Basics
  import opened AcpProtocol

  /** One table loop of `rejectPendingForTask`: drops the task's requests and reports them. */
  method RejectIn(
    table: map<RequestId, TaskId>, t: TaskId)
    returns (kept: map<RequestId, TaskId>, rejected: set<RequestId>)
    ensures kept == Keep(table, t)
    ensures rejected == set r | r in table && table[r] == t
  {
    kept, rejected := table, {};
    var todo := table.Keys;
    while todo != {}
      invariant todo <= table.Keys
      invariant rejected == set r | r in table && r !in todo && table[r] == t
      invariant kept == map r | r in table && (r in todo || table[r] != t) :: table[r]
      decreases todo
    {
      var r :| r in todo;
      todo := todo - {r};
      if table[r] == t {
        kept := kept - {r};
        rejected := rejected + {r};
      }
    }
  }

  class AcpServer {
    var objects: map<SessionId, Session>
    var open: set<SessionId>
    var pendingClientRequests: map<RequestId, Pending>
    /** Who issued each request, and how often its waiter was resolved or rejected. */
    ghost var issuer: map<RequestId, SessionId>
    ghost var settled: multiset<RequestId>
    /** The requests whose asking the task's status refused. */
    ghost var refused: set<RequestId>

    ghost function View(): State
      reads this
    {
      State(objects, open, pendingClientRequests, issuer, settled, refused)
    }

    constructor ()
      ensures View() == Init()
    {
      objects, open, pendingClientRequests := map[], {}, map[];
      issuer, settled, refused := map[], multiset{}, {};
    }

    /** `requestInteraction` and `requestPermission`; an exception in the promise's executor rejects the promise. */
    method RequestClient(s: SessionId, t: TaskId, r: RequestId, k: Kind)
      requires s in objects
      modifies this
      ensures View() == Ask(old(View()), s, t, r, k)
    {
      pendingClientRequests := pendingClientRequests[r := Pending(s, k)];
      issuer := issuer[r := s];
      var session := objects[s];
      var listed := WithTable(session, k, Table(session, k)[r := t]);
      if t in session.tasks {
        var moved := TransitionStatus(session.tasks[t], WaitingStatus(k));
        if moved.Some? {
          listed := listed.(tasks := session.tasks[t := moved.value]);
        } else {
          settled, refused := settled + multiset{r}, refused + {r};
        }
      }
      objects := objects[s := listed];
    }

    method DispatchClientResponse(r: RequestId) returns (reply: Reply)
      modifies this
      ensures (View(), reply) == Respond(old(View()), r)
    {
      if r !in pendingClientRequests {
        return UnknownRequest;
      }
      var p := pendingClientRequests[r];
      pendingClientRequests := pendingClientRequests - {r};
      if p.session !in open || p.session !in objects {
        return SessionNotFound;
      }
      var session := objects[p.session];
      var table := Table(session, p.kind);
      if r !in table {
        return PendingRequestNotFound;
      }
      var rest := table - {r};
      session := WithTable(session, p.kind, rest);
      var t := table[r];
      if t in session.tasks && session.tasks[t].status == WaitingStatus(p.kind) {
        session := session.(tasks := session.tasks[t := session.tasks[t].(status := Running)]);
      }
      objects := objects[p.session := session];
      settled := settled + multiset{r};
      return Settled;
    }

    /** `activeTaskId`: scans the tasks from the newest back. */
    static method FindActiveTask(session: Session) returns (found: Option<TaskId>)
      ensures found == ActiveTask(session)
    {
      var n := |session.order|;
      assert session.order[..n] == session.order;
      while n > 0
        invariant 0 <= n <= |session.order|
        invariant ActiveTask(session) == LastActive(session, session.order[..n])
      {
        n := n - 1;
        assert session.order[..n + 1][..n] == session.order[..n];
        var t := session.order[n];
        if t in session.tasks && !Terminal(session.tasks[t].status) {
          return Some(t);
        }
      }
      return None;
    }

    /** Raises the abort signal, then `rejectPendingForTask` over both tables. */
    method StopTask(s: SessionId, session: Session, t: TaskId, task: Task)
      modifies this
      ensures View() == Stop(old(View()), s, session, t, task)
    {
      var interactions, rejectedI := RejectIn(session.interactions, t);
      var permissions, rejectedP := RejectIn(session.permissions, t);
      var tasks := session.tasks[t := task.(aborted := true)];
      objects := objects[s := session.(tasks := tasks, interactions := interactions, permissions := permissions)];
      assert rejectedI + rejectedP == Rejected(session, t);
      pendingClientRequests := pendingClientRequests - (rejectedI + rejectedP);
      settled := settled + multiset(rejectedI + rejectedP);
    }

    method CancelTask(s: SessionId, named: Option<TaskId>) returns (reply: CancelReply)
      modifies this
      ensures (View(), reply) == Cancel(old(View()), s, named)
    {
      if s !in open || s !in objects {
        return NoSession;
      }
      var session := objects[s];
      var chosen := named;
      if named.None? {
        chosen := FindActiveTask(session);
      }
      if chosen.None? {
        return NothingActive;
      }
      var t := chosen.value;
      if t !in session.tasks {
        return NoTask;
      }
      var marked := session.tasks[t].(cancellationRequested := true);
      objects := objects[s := session.(tasks := session.tasks[t := marked])];
      var moved := TransitionStatus(marked, CancelRequested);
      if moved.None? {
        return Refused;
      }
      StopTask(s, session, t, moved.value);
      assert objects == old(objects)[s := objects[s]];
      return Accepted;
    }

    method CloseSession(s: SessionId)
      modifies this
      ensures View() == Close(old(View()), s)
    {
      if s in open && s in objects {
        settled := settled + multiset(objects[s].interactions.Keys + objects[s].permissions.Keys);
        open := open - {s};
      }
    }

    /** The segment of `runCodeTask` that follows `await runtime.build`, with the catch in `prompt`. */
    method ResumeAfterBuild(s: SessionId, t: TaskId, planned: bool, stopped: bool)
      requires s in objects && t in objects[s].tasks && objects[s].tasks[t].at == AwaitBuild
      modifies this
      ensures View() == Next(old(View()), BuildReturns(s, t, planned, stopped))
    {
      var task := objects[s].tasks[t];
      if CancelSignalled(task) {
        task := FinishFromError(task);
      } else if !planned {
        task := FinishWith(task, if stopped then Cancelled else Failed);
      } else if !task.autoRun {
        task := FinishWith(task, Completed);
      } else {
        var moved := TransitionPhase(task, Run);
        if moved.None? {
          task := FinishFromError(task);
        } else if CancelSignalled(moved.value) {
          task := FinishFromError(moved.value);
        } else {
          task := moved.value.(at := AwaitRun, runStarted := true);
        }
      }
      objects := objects[s := objects[s].(tasks := objects[s].tasks[t := task])];
    }

    /** The segment that follows `await runtime.run`. */
    method ResumeAfterRun(s: SessionId, t: TaskId, ok: bool)
      requires s in objects && t in objects[s].tasks && objects[s].tasks[t].at == AwaitRun
      modifies this
      ensures View() == Next(old(View()), RunReturns(s, t, ok))
    {
      var task := objects[s].tasks[t];
      if CancelSignalled(task) {
        task := FinishFromError(task);
      } else {
        task := FinishWith(task, if ok then Completed else Failed);
      }
      objects := objects[s := objects[s].(tasks := objects[s].tasks[t := task])];
    }
  }
}
