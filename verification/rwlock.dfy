/**
 * The readers-writer lock as its interleaving sees it. Code between awaits is atomic, so a waiter
 * whose resolver has been called is *granted* until it runs again and only then touches the lock.
 */
module RwLock {
  import opened Basics

  /** A ticket stands for one caller and, while it is queued, for its resolver. */
  type Ticket = nat

  datatype Lock = Lock(activeReaders: int, writing: bool, readerQueue: seq<Ticket>, writerQueue: seq<Ticket>)

  /** What one atomic segment does: the new fields, whether the caller went straight in, and whom it woke. */
  datatype Outcome = Outcome(lock: Lock, entered: bool, wokenReaders: seq<Ticket>, wokenWriters: seq<Ticket>)

  function Quiet(lock: Lock, entered: bool): Outcome {
    Outcome(lock, entered, [], [])
  }

  function BeginRead(l: Lock, t: Ticket): Outcome {
    if !l.writing && l.writerQueue == [] then Quiet(l.(activeReaders := l.activeReaders + 1), true)
    else Quiet(l.(readerQueue := l.readerQueue + [t]), false)
  }

  function BeginWrite(l: Lock, t: Ticket): Outcome {
    if !l.writing && l.activeReaders == 0 then Quiet(l.(writing := true), true)
    else Quiet(l.(writerQueue := l.writerQueue + [t]), false)
  }

  /** `eager` is the variant that records a grant here instead of when the waiter resumes. */
  function AdmitNext(eager: bool, l: Lock): Outcome {
    if l.writerQueue != [] then
      var rest := l.(writerQueue := l.writerQueue[1..]);
      Outcome(if eager then rest.(writing := true) else rest, false, [], [l.writerQueue[0]])
    else
      var rest := l.(readerQueue := []);
      Outcome(if eager then rest.(activeReaders := l.activeReaders + |l.readerQueue|) else rest, false,
          l.readerQueue, [])
  }

  function ResumeReader(eager: bool, l: Lock): Lock {
    if eager then l else l.(activeReaders := l.activeReaders + 1)
  }

  function ResumeWriter(eager: bool, l: Lock): Lock {
    if eager then l else l.(writing := true)
  }

  function EndRead(eager: bool, l: Lock): Outcome {
    var left := l.(activeReaders := l.activeReaders - 1);
    if left.activeReaders == 0 then AdmitNext(eager, left) else Quiet(left, false)
  }

  function EndWrite(eager: bool, l: Lock): Outcome {
    AdmitNext(eager, l.(writing := false))
  }

  /** The lock object: one method per atomic segment, each doing exactly what its function above says. */
  class ReadWriteLock {
    var activeReaders: int
    var writing: bool
    var readerQueue: seq<Ticket>
    var writerQueue: seq<Ticket>

    ghost function Fields(): Lock
      reads this
    {
      Lock(activeReaders, writing, readerQueue, writerQueue)
    }

    constructor ()
      ensures Fields() == Lock(0, false, [], [])
    {
      activeReaders, writing, readerQueue, writerQueue := 0, false, [], [];
    }

    method AcquireRead(t: Ticket) returns (entered: bool)
      modifies this
      ensures BeginRead(old(Fields()), t) == Quiet(Fields(), entered)
    {
      if !writing && writerQueue == [] {
        activeReaders := activeReaders + 1;
        return true;
      }
      readerQueue := readerQueue + [t];
      return false;
    }

    method AcquireReadResumed()
      modifies this
      ensures Fields() == ResumeReader(false, old(Fields()))
    {
      activeReaders := activeReaders + 1;
    }

    method AcquireWrite(t: Ticket) returns (entered: bool)
      modifies this
      ensures BeginWrite(old(Fields()), t) == Quiet(Fields(), entered)
    {
      if !writing && activeReaders == 0 {
        writing := true;
        return true;
      }
      writerQueue := writerQueue + [t];
      return false;
    }

    method AcquireWriteResumed()
      modifies this
      ensures Fields() == ResumeWriter(false, old(Fields()))
    {
      writing := true;
    }

    method ReleaseRead() returns (wokenReaders: seq<Ticket>, wokenWriters: seq<Ticket>)
      modifies this
      ensures EndRead(false, old(Fields())) == Outcome(Fields(), false, wokenReaders, wokenWriters)
    {
      wokenReaders, wokenWriters := [], [];
      activeReaders := activeReaders - 1;
      if activeReaders == 0 {
        wokenReaders, wokenWriters := Admit();
      }
    }

    method ReleaseWrite() returns (wokenReaders: seq<Ticket>, wokenWriters: seq<Ticket>)
      modifies this
      ensures EndWrite(false, old(Fields())) == Outcome(Fields(), false, wokenReaders, wokenWriters)
    {
      writing := false;
      wokenReaders, wokenWriters := Admit();
    }

    method Admit() returns (wokenReaders: seq<Ticket>, wokenWriters: seq<Ticket>)
      modifies this
      ensures AdmitNext(false, old(Fields())) == Outcome(Fields(), false, wokenReaders, wokenWriters)
    {
      wokenReaders, wokenWriters := [], [];
      if writerQueue != [] {
        wokenWriters := [writerQueue[0]];
        writerQueue := writerQueue[1..];
        return;
      }
      while readerQueue != []
        invariant wokenReaders + readerQueue == old(readerQueue)
        invariant Fields() == old(Fields()).(readerQueue := readerQueue)
        decreases |readerQueue|
      {
        wokenReaders := wokenReaders + [readerQueue[0]];
        readerQueue := readerQueue[1..];
      }
    }
  }

  // ---- Runs -----------------------------------------------------------------------------

  datatype Event =
    | AcquireRead(t: Ticket)
    | AcquireWrite(t: Ticket)
    | ResumeRead(t: Ticket)
    | ResumeWrite(t: Ticket)
    | ReleaseRead(t: Ticket)
    | ReleaseWrite(t: Ticket)

  /** The lock, who is inside, who is granted but not yet resumed, and the order of waits and grants. */
  datatype World = World(
    lock: Lock,
    readersIn: set<Ticket>,
    writersIn: set<Ticket>,
    grantedReaders: set<Ticket>,
    grantedWriters: set<Ticket>,
    known: set<Ticket>,
    readersQueued: seq<Ticket>,
    writersQueued: seq<Ticket>,
    readersGranted: seq<Ticket>,
    writersGranted: seq<Ticket>
  )

  function Start(): World {
    World(Lock(0, false, [], []), {}, {}, {}, {}, {}, [], [], [], [])
  }

  /** Each caller acquires once, resumes only when granted, and releases only from inside. */
  predicate Enabled(w: World, e: Event) {
    match e
    case AcquireRead(t) => t !in w.known
    case AcquireWrite(t) => t !in w.known
    case ResumeRead(t) => t in w.grantedReaders
    case ResumeWrite(t) => t in w.grantedWriters
    case ReleaseRead(t) => t in w.readersIn
    case ReleaseWrite(t) => t in w.writersIn
  }

  function ToSet(q: seq<Ticket>): set<Ticket> {
    set t | t in q
  }

  function Woken(w: World, o: Outcome): World {
    w.(lock := o.lock,
       grantedReaders := w.grantedReaders + ToSet(o.wokenReaders),
       grantedWriters := w.grantedWriters + ToSet(o.wokenWriters),
       readersGranted := w.readersGranted + o.wokenReaders,
       writersGranted := w.writersGranted + o.wokenWriters)
  }

  function Step(eager: bool, w: World, e: Event): World
    requires Enabled(w, e)
  {
    match e
    case AcquireRead(t) =>
      var o := BeginRead(w.lock, t);
      var seen := w.(lock := o.lock, known := w.known + {t});
      if o.entered then seen.(readersIn := w.readersIn + {t})
      else seen.(readersQueued := w.readersQueued + [t])
    case AcquireWrite(t) =>
      var o := BeginWrite(w.lock, t);
      var seen := w.(lock := o.lock, known := w.known + {t});
      if o.entered then seen.(writersIn := w.writersIn + {t})
      else seen.(writersQueued := w.writersQueued + [t])
    case ResumeRead(t) =>
      w.(lock := ResumeReader(eager, w.lock), grantedReaders := w.grantedReaders - {t}, readersIn := w.readersIn + {t})
    case ResumeWrite(t) =>
      w.(lock := ResumeWriter(eager, w.lock), grantedWriters := w.grantedWriters - {t}, writersIn := w.writersIn + {t})
    case ReleaseRead(t) =>
      Woken(w.(readersIn := w.readersIn - {t}), EndRead(eager, w.lock))
    case ReleaseWrite(t) =>
      Woken(w.(writersIn := w.writersIn - {t}), EndWrite(eager, w.lock))
  }

  ghost predicate Legal(eager: bool, es: seq<Event>)
    decreases |es|, 0
  {
    es == [] || (Legal(eager, es[..|es| - 1]) && Enabled(After(eager, es[..|es| - 1]), es[|es| - 1]))
  }

  /** The world after a run from the fresh lock. */
  ghost function After(eager: bool, es: seq<Event>): World
    requires Legal(eager, es)
    decreases |es|, 1
  {
    if es == [] then Start() else Step(eager, After(eager, es[..|es| - 1]), es[|es| - 1])
  }

  ghost predicate Exclusive(w: World) {
    && (forall a, b :: a in w.writersIn && b in w.writersIn ==> a == b)
    && (w.writersIn != {} ==> w.readersIn == {})
  }

  /** True of every run, whoever resumes when. */
  ghost predicate BookInv(eager: bool, w: World) {
    && w.lock.activeReaders == |w.readersIn| + (if eager then |w.grantedReaders| else 0)
    && (w.lock.writing ==> w.writersIn != {} || (eager && w.grantedWriters != {}))
    && w.readersQueued == w.readersGranted + w.lock.readerQueue
    && w.writersQueued == w.writersGranted + w.lock.writerQueue
    && Apart(w)
  }

  /** Every ticket is in one place only, and was queued at most once. */
  ghost predicate Apart(w: World) {
    && NoDup(w.readersQueued) && NoDup(w.writersQueued)
    && (forall t :: t in w.readersQueued ==> t !in w.writersQueued && t in w.known)
    && (forall t :: t in w.writersQueued ==> t in w.known)
    && w.readersIn <= w.known && w.writersIn <= w.known
    && w.grantedReaders <= ToSet(w.readersGranted) && w.grantedWriters <= ToSet(w.writersGranted)
    && w.grantedReaders !! w.readersIn && w.grantedWriters !! w.writersIn
    && (forall t :: t in w.lock.readerQueue ==> t !in w.readersIn)
    && (forall t :: t in w.lock.writerQueue ==> t !in w.writersIn)
  }

  ghost predicate NobodyHolds(w: World) {
    w.readersIn == {} && w.writersIn == {} && w.grantedReaders == {} && w.grantedWriters == {}
  }

  ghost predicate Waiting(w: World) {
    w.lock.readerQueue != [] || w.lock.writerQueue != []
  }

  // ---- Bookkeeping, true of every schedule ----------------------------------------------

  lemma {:induction false} ToSetSize(q: seq<Ticket>)
    requires NoDup(q)
    ensures |ToSet(q)| == |q|
  {
    if q != [] {
      var n := |q| - 1;
      assert q == q[..n] + [q[n]];
      ToSetSize(q[..n]);
      assert ToSet(q) == ToSet(q[..n]) + {q[n]};
      assert q[n] !in q[..n];
    }
  }

  lemma {:induction false} NoDupSplit(a: seq<Ticket>, b: seq<Ticket>)
    requires NoDup(a + b)
    ensures NoDup(a) && NoDup(b) && forall t :: t in a ==> t !in b
  {
    var q := a + b;
    forall i, j | 0 <= i < j < |b| ensures b[i] != b[j] { assert q[|a| + i] != q[|a| + j]; }
    forall i, j | 0 <= i < |a| && 0 <= j < |b| ensures a[i] != b[j] { assert q[i] != q[|a| + j]; }
    forall i, j | 0 <= i < j < |a| ensures a[i] != a[j] { assert q[i] != q[j]; }
  }

  lemma {:induction false} AdmitKeepsBooks(eager: bool, w: World)
    requires BookInv(eager, w)
    ensures BookInv(eager, Woken(w, AdmitNext(eager, w.lock)))
  {
    NoDupSplit(w.readersGranted, w.lock.readerQueue);
    NoDupSplit(w.writersGranted, w.lock.writerQueue);
    var o := AdmitNext(eager, w.lock);
    var v := Woken(w, o);
    if w.lock.writerQueue != [] {
      assert w.writersQueued == (w.writersGranted + [w.lock.writerQueue[0]]) + w.lock.writerQueue[1..];
      assert v.grantedReaders == w.grantedReaders;
      assert w.lock.writerQueue[0] in w.lock.writerQueue;
      assert forall t :: t in w.lock.writerQueue[1..] ==> t in w.lock.writerQueue;
    } else {
      ToSetSize(w.lock.readerQueue);
      assert w.grantedReaders !! ToSet(w.lock.readerQueue);
      assert v.readersGranted + [] == w.readersQueued;
    }
  }

  /** A ticket nobody has seen is in no queue and no history. */
  lemma {:induction false} FreshTicket(eager: bool, w: World, t: Ticket)
    requires BookInv(eager, w) && t !in w.known
    ensures t !in w.readersQueued && t !in w.writersQueued && t !in w.grantedReaders && t !in w.grantedWriters
  {
    assert forall x :: x in w.readersGranted ==> x in w.readersQueued;
    assert forall x :: x in w.writersGranted ==> x in w.writersQueued;
  }

  lemma {:induction false} ReadKeepsBooks(eager: bool, w: World, t: Ticket)
    requires BookInv(eager, w) && t !in w.known
    ensures BookInv(eager, Step(eager, w, AcquireRead(t)))
  {
    var v := Step(eager, w, AcquireRead(t));
    FreshTicket(eager, w, t);
    if !BeginRead(w.lock, t).entered {
      assert v.readersQueued == v.readersGranted + v.lock.readerQueue;
    } else {
      assert forall x :: x in w.lock.readerQueue ==> x in w.readersQueued;
    }
  }

  lemma {:induction false} WriteKeepsBooks(eager: bool, w: World, t: Ticket)
    requires BookInv(eager, w) && t !in w.known
    ensures BookInv(eager, Step(eager, w, AcquireWrite(t)))
  {
    var v := Step(eager, w, AcquireWrite(t));
    FreshTicket(eager, w, t);
    if !BeginWrite(w.lock, t).entered {
      assert v.writersQueued == v.writersGranted + v.lock.writerQueue;
    } else {
      assert forall x :: x in w.lock.writerQueue ==> x in w.writersQueued;
    }
  }

  lemma {:induction false} ResumeKeepsBooks(eager: bool, w: World, e: Event)
    requires BookInv(eager, w) && Enabled(w, e) && (e.ResumeRead? || e.ResumeWrite?)
    ensures BookInv(eager, Step(eager, w, e))
  {
    NoDupSplit(w.readersGranted, w.lock.readerQueue);
    NoDupSplit(w.writersGranted, w.lock.writerQueue);
    assert e.t in ToSet(w.readersGranted) || e.t in ToSet(w.writersGranted);
    assert forall x :: x in w.readersGranted ==> x in w.readersQueued;
    assert forall x :: x in w.writersGranted ==> x in w.writersQueued;
  }

  lemma {:induction false} StepKeepsBooks(eager: bool, w: World, e: Event)
    requires BookInv(eager, w) && Enabled(w, e)
    ensures BookInv(eager, Step(eager, w, e))
  {
    hide AdmitNext, BookInv;
    match e
    case AcquireRead(t) => ReadKeepsBooks(eager, w, t);
    case AcquireWrite(t) => WriteKeepsBooks(eager, w, t);
    case ResumeRead(t) => ResumeKeepsBooks(eager, w, e);
    case ResumeWrite(t) => ResumeKeepsBooks(eager, w, e);
    case ReleaseRead(t) =>
      var left := w.(readersIn := w.readersIn - {t}, lock := w.lock.(activeReaders := w.lock.activeReaders - 1));
      LeavingKeepsBooks(eager, w, t);
      if left.lock.activeReaders == 0 {
        AdmitKeepsBooks(eager, left);
        assert Step(eager, w, e) == Woken(left, AdmitNext(eager, left.lock));
      } else {
        NobodyWoken(left);
        assert Step(eager, w, e) == Woken(left, Quiet(left.lock, false));
      }
    case ReleaseWrite(t) =>
      var left := w.(writersIn := w.writersIn - {t}, lock := w.lock.(writing := false));
      WriterLeavingKeepsBooks(eager, w, t);
      AdmitKeepsBooks(eager, left);
      assert Step(eager, w, e) == Woken(left, AdmitNext(eager, left.lock));
  }

  lemma {:induction false} LeavingKeepsBooks(eager: bool, w: World, t: Ticket)
    requires BookInv(eager, w) && t in w.readersIn
    ensures BookInv(eager, w.(readersIn := w.readersIn - {t},
                lock := w.lock.(activeReaders := w.lock.activeReaders - 1)))
  {
  }

  lemma {:induction false} WriterLeavingKeepsBooks(eager: bool, w: World, t: Ticket)
    requires BookInv(eager, w) && t in w.writersIn
    ensures BookInv(eager, w.(writersIn := w.writersIn - {t}, lock := w.lock.(writing := false)))
  {
  }

  lemma {:induction false} NobodyWoken(w: World)
    ensures Woken(w, Quiet(w.lock, false)) == w
  {
    assert w.readersGranted + [] == w.readersGranted && w.writersGranted + [] == w.writersGranted;
  }

  lemma {:induction false} BooksAlwaysBalance(eager: bool, es: seq<Event>)
    requires Legal(eager, es)
    ensures BookInv(eager, After(eager, es))
    decreases |es|
  {
    if es != [] {
      BooksAlwaysBalance(eager, es[..|es| - 1]);
      StepKeepsBooks(eager, After(eager, es[..|es| - 1]), es[|es| - 1]);
    }
  }

  // ---- Liveness, for every schedule -----------------------------------------------------

  lemma {:induction false} StepKeepsWakeups(eager: bool, w: World, e: Event)
    requires BookInv(eager, w) && Enabled(w, e)
    requires Waiting(w) ==> !NobodyHolds(w)
    ensures Waiting(Step(eager, w, e)) ==> !NobodyHolds(Step(eager, w, e))
  {
    var v := Step(eager, w, e);
    match e
    case AcquireRead(t) => if BeginRead(w.lock, t).entered { assert t in v.readersIn; }
    case AcquireWrite(t) => if BeginWrite(w.lock, t).entered { assert t in v.writersIn; }
    case ResumeRead(t) => assert t in v.readersIn;
    case ResumeWrite(t) => assert t in v.writersIn;
    case ReleaseRead(t) => ReleaseWakes(eager, w, e);
    case ReleaseWrite(t) => ReleaseWakes(eager, w, e);
  }

  lemma {:induction false} AdmitWakes(eager: bool, w: World)
    requires Waiting(w)
    ensures !NobodyHolds(Woken(w, AdmitNext(eager, w.lock)))
  {
    var v := Woken(w, AdmitNext(eager, w.lock));
    if w.lock.writerQueue != [] {
      assert w.lock.writerQueue[0] in v.grantedWriters;
    } else {
      assert w.lock.readerQueue[0] in v.grantedReaders;
    }
  }

  lemma {:induction false} ReleaseWakes(eager: bool, w: World, e: Event)
    requires BookInv(eager, w) && Enabled(w, e) && (e.ReleaseRead? || e.ReleaseWrite?)
    ensures Waiting(Step(eager, w, e)) ==> !NobodyHolds(Step(eager, w, e))
  {
    var v := Step(eager, w, e);
    if e.ReleaseRead? {
      var left := w.(readersIn := w.readersIn - {e.t}, lock := w.lock.(activeReaders := w.lock.activeReaders - 1));
      if left.lock.activeReaders == 0 {
        if Waiting(left) { AdmitWakes(eager, left); }
        assert v == Woken(left, AdmitNext(eager, left.lock));
      } else {
        assert |left.readersIn| + (if eager then |w.grantedReaders| else 0) != 0;
      }
    } else {
      var left := w.(writersIn := w.writersIn - {e.t}, lock := w.lock.(writing := false));
      if Waiting(left) { AdmitWakes(eager, left); }
      assert v == Woken(left, AdmitNext(eager, left.lock));
    }
  }

  /** No lost wake-up: with nobody inside and no grant outstanding, both queues are empty. */
  lemma {:induction false} NoLostWakeup(eager: bool, es: seq<Event>)
    requires Legal(eager, es)
    ensures NobodyHolds(After(eager, es)) ==> !Waiting(After(eager, es))
    decreases |es|
  {
    if es != [] {
      var before := es[..|es| - 1];
      NoLostWakeup(eager, before);
      BooksAlwaysBalance(eager, before);
      StepKeepsWakeups(eager, After(eager, before), es[|es| - 1]);
    }
  }

  /** A reader is kept waiting only by a writer that holds the lock, waits for it, or has been granted it. */
  ghost predicate KeptByWriter(w: World) {
    w.lock.readerQueue != [] ==> w.lock.writing || w.lock.writerQueue != [] || w.grantedWriters != {}
  }

  lemma {:induction false} AdmitFreesReaders(eager: bool, w: World)
    ensures KeptByWriter(Woken(w, AdmitNext(eager, w.lock)))
  {
    if w.lock.writerQueue != [] {
      assert w.lock.writerQueue[0] in Woken(w, AdmitNext(eager, w.lock)).grantedWriters;
    }
  }

  lemma {:induction false} StepKeepsReadersFree(eager: bool, w: World, e: Event)
    requires KeptByWriter(w) && Enabled(w, e) && (eager ==> EagerInv(w))
    ensures KeptByWriter(Step(eager, w, e))
  {
    match e
    case ReleaseRead(t) =>
      var left := w.(readersIn := w.readersIn - {t}, lock := w.lock.(activeReaders := w.lock.activeReaders - 1));
      if left.lock.activeReaders == 0 {
        AdmitFreesReaders(eager, left);
        assert Step(eager, w, e) == Woken(left, AdmitNext(eager, left.lock));
      } else {
        assert ToSet([]) == {};
      }
    case ReleaseWrite(t) =>
      var left := w.(writersIn := w.writersIn - {t}, lock := w.lock.(writing := false));
      AdmitFreesReaders(eager, left);
      assert Step(eager, w, e) == Woken(left, AdmitNext(eager, left.lock));
    case _ =>
  }

  /** In every run: no reader waits unless a writer holds the lock, waits or is granted; so readers leave together. */
  lemma {:induction false} ReadersWaitForWriters(eager: bool, es: seq<Event>)
    requires Legal(eager, es)
    ensures KeptByWriter(After(eager, es))
    decreases |es|
  {
    if es != [] {
      var before := es[..|es| - 1];
      ReadersWaitForWriters(eager, before);
      if eager { EagerGrantsExclude(before); }
      StepKeepsReadersFree(eager, After(eager, before), es[|es| - 1]);
    }
  }

  /**
   * Whom one event grants, told from the queues: only a release grants; the first waiting writer and nobody else,
   * or, where no writer waits, every waiting reader.
   */
  ghost predicate GrantsRightly(w: World, e: Event, v: World) {
    var writers, readers := w.lock.writerQueue, w.lock.readerQueue;
    && (v.writersGranted != w.writersGranted ==>
          (e.ReleaseRead? || e.ReleaseWrite?) && writers != [] && v.writersGranted == w.writersGranted + [writers[0]] &&
          v.readersGranted == w.readersGranted)
    && (v.readersGranted != w.readersGranted ==>
          (e.ReleaseRead? || e.ReleaseWrite?) && writers == [] && v.readersGranted == w.readersGranted + readers)
  }

  lemma {:induction false} EveryGrantIsRight(eager: bool, w: World, e: Event)
    requires Enabled(w, e)
    ensures GrantsRightly(w, e, Step(eager, w, e))
  {
    assert w.readersGranted + [] == w.readersGranted && w.writersGranted + [] == w.writersGranted;
  }

  /** Grants follow the order of arrival and no waiter is granted twice. */
  lemma {:induction false} GrantsAreFifo(eager: bool, es: seq<Event>)
    requires Legal(eager, es)
    ensures
      var w := After(eager, es);
      && w.writersGranted <= w.writersQueued && w.readersGranted <= w.readersQueued
      && NoDup(w.writersGranted) && NoDup(w.readersGranted)
      && (forall t :: t in w.writersQueued ==> t in w.writersGranted || t in w.lock.writerQueue)
      && (forall t :: t in w.readersQueued ==> t in w.readersGranted || t in w.lock.readerQueue)
  {
    BooksAlwaysBalance(eager, es);
    var w := After(eager, es);
    NoDupSplit(w.readersGranted, w.lock.readerQueue);
    NoDupSplit(w.writersGranted, w.lock.writerQueue);
  }

  /** A run continued by more events. */
  lemma {:induction false} LegalPrefix(eager: bool, es: seq<Event>, fs: seq<Event>)
    requires Legal(eager, es + fs)
    ensures Legal(eager, es)
    decreases |fs|
  {
    if fs == [] {
      assert es + fs == es;
    } else {
      assert (es + fs)[..|es + fs| - 1] == es + fs[..|fs| - 1];
      LegalPrefix(eager, es, fs[..|fs| - 1]);
    }
  }

  /** While a writer waits, one more event lets no reader in that was not already granted. */
  lemma {:induction false} WaitingWriterHoldsOffReaders(eager: bool, w: World, e: Event, t: Ticket)
    requires BookInv(eager, w) && Enabled(w, e) && t in w.lock.writerQueue
    ensures OnlyGrantedEnter(w, Step(eager, w, e))
  {
    assert w.lock.writerQueue != [];
    assert w.readersGranted + [] == w.readersGranted;
  }

  /** Between `w` and `v` no reader was granted, and those who entered had been granted before. */
  ghost predicate OnlyGrantedEnter(w: World, v: World) {
    && v.readersIn <= w.readersIn + w.grantedReaders
    && v.grantedReaders <= w.grantedReaders
    && v.readersGranted == w.readersGranted
  }

  /** A writer that has been seen and is not waiting never waits again. */
  lemma {:induction false} LeftQueueForGood(eager: bool, es: seq<Event>, fs: seq<Event>, t: Ticket)
    requires Legal(eager, es + fs) && Legal(eager, es)
    requires t in After(eager, es).known && t !in After(eager, es).lock.writerQueue
    ensures t in After(eager, es + fs).known && t !in After(eager, es + fs).lock.writerQueue
    decreases |fs|
  {
    if fs == [] {
      assert es + fs == es;
    } else {
      var mid := es + fs[..|fs| - 1];
      assert (es + fs)[..|es + fs| - 1] == mid;
      LeftQueueForGood(eager, es, fs[..|fs| - 1], t);
      StepLeavesQueue(eager, After(eager, mid), fs[|fs| - 1], t);
    }
  }

  lemma {:induction false} StepLeavesQueue(eager: bool, w: World, e: Event, t: Ticket)
    requires Enabled(w, e) && t in w.known && t !in w.lock.writerQueue
    ensures t in Step(eager, w, e).known && t !in Step(eager, w, e).lock.writerQueue
  {
  }

  /** No writer starvation: over any stretch in which a writer keeps waiting, only readers already granted enter. */
  lemma {:induction false} NoWriterStarvation(eager: bool, es: seq<Event>, fs: seq<Event>, t: Ticket)
    requires Legal(eager, es + fs) && Legal(eager, es)
    requires t in After(eager, es).lock.writerQueue && t in After(eager, es + fs).lock.writerQueue
    ensures OnlyGrantedEnter(After(eager, es), After(eager, es + fs))
    decreases |fs|
  {
    if fs == [] {
      assert es + fs == es;
    } else {
      var e := fs[0];
      assert es + fs == (es + [e]) + fs[1..];
      LegalPrefix(eager, es + [e], fs[1..]);
      assert (es + [e])[..|es + [e]| - 1] == es;
      var w := After(eager, es);
      BooksAlwaysBalance(eager, es);
      assert t in w.known by { assert t in w.writersQueued; }
      if t !in After(eager, es + [e]).lock.writerQueue {
        LeftQueueForGood(eager, es + [e], fs[1..], t);
      }
      WaitingWriterHoldsOffReaders(eager, w, e, t);
      NoWriterStarvation(eager, es + [e], fs[1..], t);
    }
  }

  // ---- Exclusion ------------------------------------------------------------------------

  /** At most one writer inside or granted, and then no reader inside or granted; the fields agree. */
  ghost predicate Separate(w: World) {
    var writers := w.writersIn + w.grantedWriters;
    && (forall a, b :: a in writers && b in writers ==> a == b)
    && (writers != {} ==> w.readersIn == {} && w.grantedReaders == {})
  }

  lemma {:induction false} OnlyWriter(w: World, t: Ticket)
    requires Apart(w) && Separate(w) && t in w.writersIn
    ensures w.writersIn - {t} == {} && w.grantedWriters == {} && w.readersIn == {} && w.grantedReaders == {}
  {
    var writers := w.writersIn + w.grantedWriters;
    assert t in writers;
    forall x | x in writers ensures x == t { }
    assert t !in w.grantedWriters;
  }

  lemma {:induction false} ResumeMoves(eager: bool, w: World, t: Ticket)
    requires Separate(w) && t in w.grantedWriters
    ensures Separate(Step(eager, w, ResumeWrite(t))) && t in Step(eager, w, ResumeWrite(t)).writersIn
  {
    var v := Step(eager, w, ResumeWrite(t));
    assert t in w.writersIn + w.grantedWriters;
    assert v.writersIn + v.grantedWriters == w.writersIn + w.grantedWriters;
  }

  ghost predicate EagerInv(w: World) {
    && Separate(w)
    && (w.lock.writing <==> w.writersIn != {} || w.grantedWriters != {})
  }

  /** With the grant recorded in `admitNext`, exclusion holds under every schedule. */
  lemma {:induction false} EagerGrantsExclude(es: seq<Event>)
    requires Legal(true, es)
    ensures EagerInv(After(true, es)) && Exclusive(After(true, es))
    decreases |es|
  {
    if es != [] {
      var before := es[..|es| - 1];
      EagerGrantsExclude(before);
      BooksAlwaysBalance(true, before);
      EagerStep(After(true, before), es[|es| - 1]);
    }
  }

  lemma {:induction false} EagerStep(w: World, e: Event)
    requires BookInv(true, w) && EagerInv(w) && Enabled(w, e)
    ensures EagerInv(Step(true, w, e))
  {
    match e
    case AcquireRead(t) =>
    case AcquireWrite(t) => EagerWriteEntry(w, t);
    case ResumeRead(t) => assert t in w.readersIn + w.grantedReaders;
    case ResumeWrite(t) => ResumeMoves(true, w, t);
    case ReleaseRead(t) => EagerReadRelease(w, t);
    case ReleaseWrite(t) => EagerWriteRelease(w, t);
  }

  lemma {:induction false} EagerWriteEntry(w: World, t: Ticket)
    requires BookInv(true, w) && EagerInv(w) && t !in w.known
    ensures EagerInv(Step(true, w, AcquireWrite(t)))
  {
    if BeginWrite(w.lock, t).entered {
      assert |w.readersIn| == 0 && |w.grantedReaders| == 0;
      assert t in Step(true, w, AcquireWrite(t)).writersIn;
    }
  }

  lemma {:induction false} EagerWriteRelease(w: World, t: Ticket)
    requires BookInv(true, w) && EagerInv(w) && t in w.writersIn
    ensures EagerInv(Step(true, w, ReleaseWrite(t)))
  {
    var left := w.(writersIn := w.writersIn - {t}, lock := w.lock.(writing := false));
    OnlyWriter(w, t);
    AdmitKeepsEager(left);
    assert Step(true, w, ReleaseWrite(t)) == Woken(left, AdmitNext(true, left.lock));
  }

  lemma {:induction false} EagerReadRelease(w: World, t: Ticket)
    requires BookInv(true, w) && EagerInv(w) && t in w.readersIn
    ensures EagerInv(Step(true, w, ReleaseRead(t)))
  {
    var left := w.(readersIn := w.readersIn - {t}, lock := w.lock.(activeReaders := w.lock.activeReaders - 1));
    if left.lock.activeReaders == 0 {
      assert |left.readersIn| == 0 && |left.grantedReaders| == 0;
      AdmitKeepsEager(left);
      assert Step(true, w, ReleaseRead(t)) == Woken(left, AdmitNext(true, left.lock));
    }
  }

  lemma {:induction false} AdmitKeepsEager(w: World)
    requires w.readersIn == {} && w.writersIn == {} && w.grantedWriters == {} && w.grantedReaders == {}
    requires !w.lock.writing
    ensures EagerInv(Woken(w, AdmitNext(true, w.lock)))
  {
    var v := Woken(w, AdmitNext(true, w.lock));
    if w.lock.writerQueue != [] {
      assert v.grantedWriters == {w.lock.writerQueue[0]};
    }
  }

  ghost predicate Outstanding(w: World) {
    w.grantedReaders != {} || w.grantedWriters != {}
  }

  /**
   * The events that break exclusion: entering directly across an outstanding grant (a reader past
   * a granted writer, a writer past anyone granted), or the last reader's release granting a writer
   * while granted readers have yet to resume.
   */
  ghost predicate Hazard(w: World, e: Event) {
    match e
    case AcquireRead(t) => BeginRead(w.lock, t).entered && w.grantedWriters != {}
    case AcquireWrite(t) => BeginWrite(w.lock, t).entered && Outstanding(w)
    case ReleaseRead(t) => w.lock.activeReaders == 1 && w.lock.writerQueue != [] && w.grantedReaders != {}
    case _ => false
  }

  ghost predicate HazardFree(es: seq<Event>)
    requires Legal(false, es)
    decreases |es|
  {
    es == [] || (HazardFree(es[..|es| - 1]) && !Hazard(After(false, es[..|es| - 1]), es[|es| - 1]))
  }

  ghost predicate LazyInv(w: World) {
    Separate(w) && (w.lock.writing <==> w.writersIn != {})
  }

  lemma {:induction false} LazyStep(w: World, e: Event)
    requires BookInv(false, w) && LazyInv(w) && Enabled(w, e) && !Hazard(w, e)
    ensures LazyInv(Step(false, w, e))
  {
    match e
    case AcquireRead(t) =>
    case AcquireWrite(t) => LazyWriteEntry(w, t);
    case ResumeRead(t) => assert t in w.readersIn + w.grantedReaders;
    case ResumeWrite(t) => ResumeMoves(false, w, t);
    case ReleaseRead(t) => LazyReadRelease(w, t);
    case ReleaseWrite(t) => LazyWriteRelease(w, t);
  }

  lemma {:induction false} LazyWriteEntry(w: World, t: Ticket)
    requires BookInv(false, w) && LazyInv(w) && t !in w.known && !Hazard(w, AcquireWrite(t))
    ensures LazyInv(Step(false, w, AcquireWrite(t)))
  {
    if BeginWrite(w.lock, t).entered {
      assert w.readersIn == {};
      assert t in Step(false, w, AcquireWrite(t)).writersIn;
    }
  }

  lemma {:induction false} LazyReadRelease(w: World, t: Ticket)
    requires BookInv(false, w) && LazyInv(w) && t in w.readersIn && !Hazard(w, ReleaseRead(t))
    ensures LazyInv(Step(false, w, ReleaseRead(t)))
  {
    var left := w.(readersIn := w.readersIn - {t}, lock := w.lock.(activeReaders := w.lock.activeReaders - 1));
    if left.lock.activeReaders == 0 {
      assert |left.readersIn| == 0;
      AdmitKeepsLazy(left);
      assert Step(false, w, ReleaseRead(t)) == Woken(left, AdmitNext(false, left.lock));
    }
  }

  lemma {:induction false} LazyWriteRelease(w: World, t: Ticket)
    requires BookInv(false, w) && LazyInv(w) && t in w.writersIn
    ensures LazyInv(Step(false, w, ReleaseWrite(t)))
  {
    var left := w.(writersIn := w.writersIn - {t}, lock := w.lock.(writing := false));
    OnlyWriter(w, t);
    AdmitKeepsLazy(left);
    assert Step(false, w, ReleaseWrite(t)) == Woken(left, AdmitNext(false, left.lock));
  }

  lemma {:induction false} AdmitKeepsLazy(w: World)
    requires w.readersIn == {} && w.writersIn == {} && w.grantedWriters == {} && !w.lock.writing
    requires w.lock.writerQueue != [] ==> w.grantedReaders == {}
    ensures LazyInv(Woken(w, AdmitNext(false, w.lock)))
  {
    var v := Woken(w, AdmitNext(false, w.lock));
    if w.lock.writerQueue != [] {
      assert v.grantedWriters == {w.lock.writerQueue[0]};
    }
  }

  /** Half one: a run without hazards excludes. */
  lemma {:induction false} HazardFreeExcludes(es: seq<Event>)
    requires Legal(false, es) && HazardFree(es)
    ensures LazyInv(After(false, es)) && Exclusive(After(false, es))
    decreases |es|
  {
    if es != [] {
      var before := es[..|es| - 1];
      HazardFreeExcludes(before);
      BooksAlwaysBalance(false, before);
      LazyStep(After(false, before), es[|es| - 1]);
    }
  }

  ghost predicate OnlyResumes(es: seq<Event>) {
    forall i :: 0 <= i < |es| ==> es[i].ResumeRead? || es[i].ResumeWrite?
  }

  /** Half two: once a hazard has happened, resuming the granted waiters is enough to overlap. */
  lemma {:induction false} HazardLeadsToOverlap(es: seq<Event>, e: Event) returns (rs: seq<Event>)
    requires Legal(false, es) && HazardFree(es) && Enabled(After(false, es), e) && Hazard(After(false, es), e)
    ensures OnlyResumes(rs) && Legal(false, es + [e] + rs) && !Exclusive(After(false, es + [e] + rs))
  {
    var w := After(false, es);
    BooksAlwaysBalance(false, es);
    Extend(es, e);
    if e.ReleaseRead? {
      HazardFreeExcludes(es);
      rs := ReleaseOverlaps(es + [e], w, e.t);
    } else {
      rs := EntryOverlaps(es + [e], w, e);
    }
  }

  lemma {:induction false} EntryOverlaps(run: seq<Event>, w: World, e: Event) returns (rs: seq<Event>)
    requires BookInv(false, w) && Enabled(w, e) && Hazard(w, e) && (e.AcquireRead? || e.AcquireWrite?)
    requires Legal(false, run) && After(false, run) == Step(false, w, e)
    ensures OnlyResumes(rs) && Legal(false, run + rs) && !Exclusive(After(false, run + rs))
  {
    var v := Step(false, w, e);
    assert e.t in v.readersIn || e.t in v.writersIn;
    if w.grantedWriters != {} {
      var x :| x in w.grantedWriters;
      rs := [ResumeWrite(x)];
      GrantedIsKnown(w, x);
      WriterJoins(v, x, e.t);
    } else {
      var x :| x in w.grantedReaders;
      rs := [ResumeRead(x)];
      assert x in Step(false, v, rs[0]).readersIn && e.t in Step(false, v, rs[0]).writersIn;
    }
    Extend(run, rs[0]);
  }

  lemma {:induction false} WriterJoins(v: World, x: Ticket, t: Ticket)
    requires x in v.grantedWriters && x != t && (t in v.readersIn || t in v.writersIn)
    ensures !Exclusive(Step(false, v, ResumeWrite(x)))
  {
    assert x in Step(false, v, ResumeWrite(x)).writersIn;
  }

  lemma {:induction false} ReleaseOverlaps(run: seq<Event>, w: World, t: Ticket) returns (rs: seq<Event>)
    requires BookInv(false, w) && t in w.readersIn && Hazard(w, ReleaseRead(t))
    requires Legal(false, run) && After(false, run) == Step(false, w, ReleaseRead(t))
    ensures OnlyResumes(rs) && Legal(false, run + rs) && !Exclusive(After(false, run + rs))
  {
    var x :| x in w.grantedReaders;
    var y := w.lock.writerQueue[0];
    var v := After(false, run);
    assert x in v.grantedReaders && y in v.grantedWriters;
    Extend(run, ResumeRead(x));
    Extend(run + [ResumeRead(x)], ResumeWrite(y));
    rs := [ResumeRead(x), ResumeWrite(y)];
    assert run + rs == run + [ResumeRead(x)] + [ResumeWrite(y)];
    var last := After(false, run + rs);
    assert x in last.readersIn && y in last.writersIn;
  }

  lemma {:induction false} Extend(es: seq<Event>, e: Event)
    requires Legal(false, es) && Enabled(After(false, es), e)
    ensures Legal(false, es + [e]) && After(false, es + [e]) == Step(false, After(false, es), e)
  {
    assert (es + [e])[..|es + [e]| - 1] == es;
  }

  lemma {:induction false} GrantedIsKnown(w: World, x: Ticket)
    requires BookInv(false, w) && x in w.grantedWriters
    ensures x in w.known
  {
    assert x in w.writersGranted;
    assert x in w.writersQueued;
  }

  /** A run is exposed when resuming granted waiters after some prefix of it overlaps a writer with someone. */
  ghost predicate Exposed(es: seq<Event>) {
    exists n: nat, rs :: n <= |es| && OverlapsAfter(es[..n], rs)
  }

  ghost predicate OverlapsAfter(es: seq<Event>, rs: seq<Event>) {
    OnlyResumes(rs) && Legal(false, es + rs) && !Exclusive(After(false, es + rs))
  }

  lemma {:induction false} HazardFreeIsNotExposed(es: seq<Event>, n: nat, rs: seq<Event>)
    requires Legal(false, es) && HazardFree(es) && n <= |es|
    ensures !OverlapsAfter(es[..n], rs)
  {
    PrefixHazardFree(es, n);
    if OnlyResumes(rs) && Legal(false, es[..n] + rs) {
      ResumesKeepHazardFree(es[..n], rs);
      HazardFreeExcludes(es[..n] + rs);
    }
  }

  lemma {:induction false} HazardIsExposed(es: seq<Event>)
    requires Legal(false, es) && !HazardFree(es)
    ensures Exposed(es)
  {
    var n := FirstHazard(es);
    var rs := HazardLeadsToOverlap(es[..n], es[n]);
    assert es[..n] + [es[n]] == es[..n + 1];
    assert OverlapsAfter(es[..n + 1], rs);
  }

  /** The exact condition: a run of the lock as written stays exclusive if and only if it meets no hazard. */
  lemma {:induction false} ExclusionIffHazardFree(es: seq<Event>)
    requires Legal(false, es)
    ensures HazardFree(es) <==> !Exposed(es)
  {
    if HazardFree(es) {
      forall n: nat, rs | n <= |es| ensures !OverlapsAfter(es[..n], rs) { HazardFreeIsNotExposed(es, n, rs); }
    } else {
      HazardIsExposed(es);
    }
  }

  lemma {:induction false} PrefixHazardFree(es: seq<Event>, n: nat)
    requires Legal(false, es) && HazardFree(es) && n <= |es|
    ensures Legal(false, es[..n]) && HazardFree(es[..n])
    decreases |es|
  {
    if n == |es| {
      assert es[..n] == es;
    } else {
      assert es[..|es| - 1][..n] == es[..n];
      PrefixHazardFree(es[..|es| - 1], n);
    }
  }

  lemma {:induction false} ResumesKeepHazardFree(es: seq<Event>, rs: seq<Event>)
    requires Legal(false, es) && HazardFree(es) && OnlyResumes(rs) && Legal(false, es + rs)
    ensures HazardFree(es + rs)
    decreases |rs|
  {
    if rs == [] {
      assert es + rs == es;
    } else {
      assert (es + rs)[..|es + rs| - 1] == es + rs[..|rs| - 1];
      ResumesKeepHazardFree(es, rs[..|rs| - 1]);
    }
  }

  lemma {:induction false} FirstHazard(es: seq<Event>) returns (n: nat)
    requires Legal(false, es) && !HazardFree(es)
    ensures n < |es| && Legal(false, es[..n]) && HazardFree(es[..n])
    ensures Enabled(After(false, es[..n]), es[n]) && Hazard(After(false, es[..n]), es[n])
    decreases |es|
  {
    var before := es[..|es| - 1];
    if HazardFree(before) {
      n := |es| - 1;
    } else {
      n := FirstHazard(before);
      assert before[..n] == es[..n];
    }
  }

  /** Granted waiters resume before anybody new asks for the lock. */
  ghost predicate PromptResume(es: seq<Event>)
    requires Legal(false, es)
    decreases |es|
  {
    es == [] ||
    (PromptResume(es[..|es| - 1]) &&
     (es[|es| - 1].AcquireRead? || es[|es| - 1].AcquireWrite? ==> !Outstanding(After(false, es[..|es| - 1]))))
  }

  lemma {:induction false} PromptStep(w: World, e: Event)
    requires BookInv(false, w) && Enabled(w, e) && (w.grantedReaders != {} ==> w.lock.writerQueue == [])
    requires e.AcquireRead? || e.AcquireWrite? ==> !Outstanding(w)
    ensures !Hazard(w, e)
    ensures Step(false, w, e).grantedReaders != {} ==> Step(false, w, e).lock.writerQueue == []
  {
    if e.ReleaseRead? || e.ReleaseWrite? {
      assert ToSet([]) == {};
    }
  }

  /** Under prompt resumption no writer queues while readers hold a grant, so no hazard arises and exclusion holds. */
  lemma {:induction false} PromptResumeExcludes(es: seq<Event>)
    requires Legal(false, es) && PromptResume(es)
    ensures HazardFree(es) && Exclusive(After(false, es))
    ensures After(false, es).grantedReaders != {} ==> After(false, es).lock.writerQueue == []
    decreases |es|
  {
    if es != [] {
      var before := es[..|es| - 1];
      PromptResumeExcludes(before);
      BooksAlwaysBalance(false, before);
      PromptStep(After(false, before), es[|es| - 1]);
    }
    HazardFreeExcludes(es);
  }

  /** Without that assumption the lock as written admits two writers at once. */
  lemma {:induction false} OverlapWitness()
    ensures
      var es := [AcquireWrite(0), AcquireWrite(1), ReleaseWrite(0), AcquireWrite(2), ResumeWrite(1)];
      Legal(false, es) && After(false, es).writersIn == {1, 2}
  {
    Extend([], AcquireWrite(0));
    var a := [AcquireWrite(0)];
    assert [] + a == a;
    Extend(a, AcquireWrite(1));
    var b := [AcquireWrite(0), AcquireWrite(1)];
    assert a + [AcquireWrite(1)] == b;
    Extend(b, ReleaseWrite(0));
    var c := b + [ReleaseWrite(0)];
    assert After(false, c).grantedWriters == {1} && After(false, c).writersIn == {};
    Extend(c, AcquireWrite(2));
    var d := c + [AcquireWrite(2)];
    Extend(d, ResumeWrite(1));
    assert d + [ResumeWrite(1)] == [AcquireWrite(0), AcquireWrite(1), ReleaseWrite(0), AcquireWrite(2), ResumeWrite(1)];
  }
}
