/** The Debug Wiki: the live entries against a fresh load that replays the feedback log. */
module DebugWiki {
  import opened Basics

  datatype Layer = System | Agent | External | Project

  datatype Status = Active | NeedsReview | Superseded

  datatype Kind = Used | Success | Failure | Corrected

  datatype Feedback = Feedback(at: string, kind: Kind, entryId: string, summary: string)

  datatype Stats = Stats(uses: nat, successes: nat, failures: nat)

  /** `body` stands for the prose only a resolution rewrites; `legacy` tells whether it merged several fixes. */
  datatype Entry = Entry(
    layer: Layer,
    status: Status,
    updatedAt: string,
    lastUsedAt: Option<string>,
    stats: Stats,
    feedback: seq<Feedback>,
    ticket: Option<string>,
    body: string
  )

  predicate Listed(from: Status, to: Status) {
    match from
    case Active => to == NeedsReview || to == Superseded
    case NeedsReview => to == Active || to == Superseded
    case Superseded => false
  }

  /** A transition to the current status is allowed and changes nothing. */
  predicate CanBecome(e: Entry, next: Status) {
    e.status == next || Listed(e.status, next)
  }

  function PushFeedback(history: seq<Feedback>, f: Feedback): (r: seq<Feedback>)
    ensures |r| <= Max(20, |history|) && r != [] && r[|r| - 1] == f
  {
    var all := history + [f];
    if |all| > 20 then all[|all| - 20..] else all
  }

  function Max(a: int, b: int): int {
    if a > b then a else b
  }

  function Counted(s: Stats, k: Kind): Stats {
    match k
    case Used => s.(uses := s.uses + 1)
    case Failure => s.(failures := s.failures + 1)
    case _ => s.(successes := s.successes + 1)
  }

  /** The status a feedback kind asks for, if any. */
  function Wanted(k: Kind): Option<Status> {
    match k
    case Failure => Some(NeedsReview)
    case Corrected => Some(Active)
    case _ => None
  }

  predicate Refused(e: Entry, k: Kind) {
    Wanted(k).Some? && !CanBecome(e, Wanted(k).value)
  }

  /** One feedback item on one entry, live or replayed; a refused transition leaves only the count. */
  function Touch(e: Entry, f: Feedback): Entry {
    var counted := e.(stats := Counted(e.stats, f.kind));
    if Refused(e, f.kind) then counted
    else counted.(
      status := if Wanted(f.kind).Some? then Wanted(f.kind).value else e.status,
      updatedAt := f.at,
      feedback := PushFeedback(e.feedback, f))
  }

  /** Live use also stamps the entry; the log does not carry this. */
  function TouchLive(e: Entry, f: Feedback): Entry {
    if f.kind == Used then Touch(e, f).(lastUsedAt := Some(f.at)) else Touch(e, f)
  }

  type Entries = map<string, Entry>

  /** Feedback applied in order; it stops where a transition is refused. */
  function LiveFold(entries: Entries, items: seq<Feedback>): (r: (Entries, bool))
    requires forall f :: f in items ==> f.entryId in entries
    ensures r.0.Keys == entries.Keys
  {
    if items == [] then (entries, false)
    else
      var n := |items| - 1;
      var (m, threw) := LiveFold(entries, items[..n]);
      if threw then (m, true)
      else
        var f := items[n];
        (m[f.entryId := TouchLive(m[f.entryId], f)], Refused(m[f.entryId], f.kind))
  }

  /** What the log makes of one page: only the items that name it count. */
  function Replay(e: Entry, log: seq<Feedback>, id: string): Entry {
    if log == [] then e
    else
      var n := |log| - 1;
      var before := Replay(e, log[..n], id);
      if log[n].entryId == id then Touch(before, log[n]) else before
  }

  /** Loading quarantines an active entry that merged several fixes. */
  function Quarantine(legacy: string -> bool, e: Entry): Entry {
    if e.status == Active && legacy(e.body) then e.(status := NeedsReview) else e
  }

  function Fresh(legacy: string -> bool, pages: Entries, log: seq<Feedback>): Entries {
    map id | id in pages :: Quarantine(legacy, Replay(pages[id], log, id))
  }

  /** A replay that meets a superseded entry throws, and so does the load. */
  ghost predicate ReplayThrows(pages: Entries, log: seq<Feedback>) {
    exists k :: 0 <= k < |log| && ThrowsAt(pages, log, k)
  }

  ghost predicate ThrowsAt(pages: Entries, log: seq<Feedback>, k: nat)
    requires k < |log|
  {
    var id := log[k].entryId;
    id in pages && Refused(Replay(pages[id], log[..k], id), log[k].kind)
  }

  /** `entries` are the pages with this log replayed. */
  ghost predicate Replayed(entries: Entries, pages: Entries, log: seq<Feedback>) {
    entries.Keys == pages.Keys && forall id :: id in pages ==> entries[id] == Replay(pages[id], log, id)
  }

  lemma {:induction false} ReplayedNext(entries: Entries, pages: Entries, log: seq<Feedback>, k: nat)
    requires k < |log| && Replayed(entries, pages, log[..k])
    ensures
      var f := log[k];
      if f.entryId !in entries then Replayed(entries, pages, log[..k + 1]) && !ThrowsAt(pages, log, k)
      else
        Replayed(entries[f.entryId := Touch(entries[f.entryId], f)], pages, log[..k + 1]) &&
        (ThrowsAt(pages, log, k) <==> Refused(entries[f.entryId], f.kind))
  {
    assert log[..k + 1][..k] == log[..k];
  }

  /** `dedup(ids).filter((id) => this.byId(id))`, turned into feedback. */
  function FeedbackFor(entries: Entries, ids: seq<string>, at: string, kind: Kind, summary: string): (r: seq<Feedback>)
    ensures forall f :: f in r <==>
              f.entryId in ids && f.entryId in entries && f == Feedback(at, kind, f.entryId, summary)
    ensures forall i, j :: 0 <= i < j < |r| ==> r[i].entryId != r[j].entryId
  {
    if ids == [] then []
    else
      var n := |ids| - 1;
      assert ids == ids[..n] + [ids[n]];
      var before := FeedbackFor(entries, ids[..n], at, kind, summary);
      if ids[n] in entries && ids[n] !in ids[..n] then before + [Feedback(at, kind, ids[n], summary)] else before
  }

  // ---- Operations on the whole wiki -----------------------------------------------------

  datatype Wiki = Wiki(writable: Layer, entries: Entries, pages: Entries, log: seq<Feedback>)

  function Persisted(w: Wiki): Wiki {
    w.(pages := w.pages + map id | id in w.entries && w.entries[id].layer == w.writable :: w.entries[id])
  }

  function Opened(writable: Layer, legacy: string -> bool, pages: Entries, log: seq<Feedback>): Wiki {
    var entries := Fresh(legacy, pages, log);
    var w := Wiki(writable, entries, pages, log);
    if exists id :: id in entries && entries[id] != Replay(pages[id], log, id) && entries[id].layer == writable
    then Persisted(w) else w
  }

  /** Only feedback on entries outside the writable tier goes to the log. */
  function Shared(entries: Entries, writable: Layer, items: seq<Feedback>): (r: seq<Feedback>)
    ensures forall f :: f in r <==> f in items && f.entryId in entries && entries[f.entryId].layer != writable
  {
    if items == [] then []
    else
      var n := |items| - 1;
      assert items == items[..n] + [items[n]];
      Shared(entries, writable, items[..n]) +
      if items[n].entryId in entries && entries[items[n].entryId].layer != writable then [items[n]] else []
  }

  function Recorded(w: Wiki, ids: seq<string>, at: string, kind: Kind, summary: string): (Wiki, bool) {
    var items := FeedbackFor(w.entries, ids, at, kind, summary);
    if items == [] then (w, false)
    else
      var (entries, threw) := LiveFold(w.entries, items);
      if threw then (w.(entries := entries), true)
      else (Persisted(w.(entries := entries, log := w.log + Shared(entries, w.writable, items))), false)
  }

  /** A confirmed repair; `newId` names the page a new finding would get, `order` lists the entries as held. */
  datatype Resolution = Resolution(
    ticket: Option<string>,
    used: seq<string>,
    newId: string,
    order: seq<string>,
    at: string,
    body: string,
    summary: string
  )

  /** Only the ticket that owns a writable entry may revise it. */
  predicate Owned(e: Entry, writable: Layer, ticket: Option<string>) {
    e.layer == writable && ticket.Some? && e.ticket == ticket
  }

  function Targets(w: Wiki, r: Resolution): set<string> {
    set id | id in w.entries && Owned(w.entries[id], w.writable, r.ticket)
  }

  /** The loop over the targets throws at a superseded one. */
  function Stoppers(w: Wiki, r: Resolution): set<string> {
    set id | id in Targets(w, r) && w.entries[id].status == Superseded
  }

  /** `id` is listed before every stopper. */
  predicate Reached(order: seq<string>, id: string, stop: set<string>) {
    exists k :: 0 <= k < |order| && order[k] == id && forall j :: 0 <= j <= k ==> order[j] !in stop
  }

  /** A disputed solution is replaced, an accepted one merged with the new text. */
  function Revised(merge: (string, string) -> string, id: string, e: Entry, r: Resolution): Entry {
    var kind := if e.stats.failures > 0 then Corrected else Success;
    e.(status := Active,
       updatedAt := r.at,
       body := if e.status == NeedsReview then r.body else merge(e.body, r.body),
       stats := e.stats.(successes := e.stats.successes + 1),
       feedback := PushFeedback(e.feedback, Feedback(r.at, kind, id, r.summary)))
  }

  function Created(w: Wiki, r: Resolution): Entry {
    var item := Feedback(r.at, Success, r.newId, r.summary);
    Entry(w.writable, Active, r.at, None, Stats(0, 1, 0), [item], r.ticket, r.body)
  }

  /** Where the loop was stopped, the targets listed before that point are already revised. */
  function HalfRevised(merge: (string, string) -> string, w: Wiki, r: Resolution): Entries {
    var targets, stop := Targets(w, r), Stoppers(w, r);
    map id | id in w.entries ::
      if id in targets && Reached(r.order, id, stop) then Revised(merge, id, w.entries[id], r) else w.entries[id]
  }

  function AllRevised(merge: (string, string) -> string, w: Wiki, r: Resolution): Entries {
    var targets := Targets(w, r);
    map id | id in w.entries :: if id in targets then Revised(merge, id, w.entries[id], r) else w.entries[id]
  }

  function WithResolution(merge: (string, string) -> string, w: Wiki, r: Resolution): Entries {
    if Targets(w, r) == {} then w.entries[r.newId := Created(w, r)] else AllRevised(merge, w, r)
  }

  /** Retrieved entries outside the writable tier are confirmed through the log. */
  function Resolved(merge: (string, string) -> string, w: Wiki, r: Resolution): (Wiki, bool) {
    if Stoppers(w, r) != {} then (w.(entries := HalfRevised(merge, w, r)), true)
    else
      var entries := WithResolution(merge, w, r);
      var items := Shared(entries, w.writable, FeedbackFor(w.entries, r.used, r.at, Corrected, r.summary));
      var (touched, threw) := LiveFold(entries, items);
      if threw then (w.(entries := touched), true)
      else (Persisted(w.(entries := touched, log := w.log + items)), false)
  }

  /** The page store: live entries, their pages, and the shared feedback log. */
  class Store {
    const writable: Layer
    const legacy: string -> bool
    const merge: (string, string) -> string
    var entries: Entries
    var pages: Entries
    var log: seq<Feedback>

    ghost function View(): Wiki
      reads this
    {
      Wiki(writable, entries, pages, log)
    }

    constructor(
        writable: Layer, legacy: string -> bool, merge: (string, string) -> string, pages: Entries, log: seq<Feedback>)
      ensures View() == Wiki(writable, map[], pages, log) && this.legacy == legacy && this.merge == merge
    {
      this.writable, this.legacy, this.merge := writable, legacy, merge;
      this.entries, this.pages, this.log := map[], pages, log;
    }

    /** Reads every page, replays the log, quarantines, and persists a quarantined writable tier. */
    method Load() returns (threw: bool)
      modifies this
      ensures threw <==> ReplayThrows(old(pages), old(log))
      ensures !threw ==> View() == Opened(writable, legacy, old(pages), old(log))
    {
      entries := pages;
      threw := ApplyFeedbackLog();
      if threw {
        return;
      }
      var replayed := entries;
      entries := map id | id in replayed :: Quarantine(legacy, replayed[id]);
      assert entries == Fresh(legacy, pages, log);
      if exists id :: id in entries && entries[id] != replayed[id] && entries[id].layer == writable {
        Persist();
      }
    }

    /** `applyFeedbackLog`: one line at a time, skipping ids no page carries. */
    method ApplyFeedbackLog() returns (threw: bool)
      requires entries == pages
      modifies `entries
      ensures threw <==> ReplayThrows(pages, log)
      ensures !threw ==> entries == map id | id in pages :: Replay(pages[id], log, id)
    {
      for k := 0 to |log|
        invariant Replayed(entries, pages, log[..k])
        invariant forall j :: 0 <= j < k ==> !ThrowsAt(pages, log, j)
      {
        var f := log[k];
        ReplayedNext(entries, pages, log, k);
        if f.entryId in entries {
          threw := Refused(entries[f.entryId], f.kind);
          entries := entries[f.entryId := Touch(entries[f.entryId], f)];
          if threw {
            return;
          }
        }
      }
      assert log[..|log|] == log;
      assert entries == map id | id in pages :: Replay(pages[id], log, id);
      return false;
    }

    /** `persistExternalEntries`: rewrites the page of every writable entry. */
    method Persist()
      modifies `pages
      ensures pages == Persisted(old(View())).pages
    {
      pages := pages + map id | id in entries && entries[id].layer == writable :: entries[id];
    }

    method Apply(items: seq<Feedback>) returns (threw: bool)
      requires forall f :: f in items ==> f.entryId in entries
      modifies `entries
      ensures (entries, threw) == LiveFold(old(entries), items)
    {
      threw := false;
      ghost var start := entries;
      for k := 0 to |items|
        invariant (entries, threw) == LiveFold(start, items[..k]) && !threw
      {
        assert items[..k + 1][..k] == items[..k];
        var f := items[k];
        threw := Refused(entries[f.entryId], f.kind);
        entries := entries[f.entryId := TouchLive(entries[f.entryId], f)];
        if threw {
          ThrowStays(start, items, k + 1);
          return;
        }
      }
      assert items[..|items|] == items;
    }

    /** `recordUse` and `recordFailure`, which differ only in the kind. */
    method Record(ids: seq<string>, at: string, kind: Kind, summary: string) returns (threw: bool)
      modifies this
      ensures (View(), threw) == Recorded(old(View()), ids, at, kind, summary)
    {
      var items := FeedbackFor(entries, ids, at, kind, summary);
      if items == [] {
        return false;
      }
      threw := Apply(items);
      if threw {
        return;
      }
      log := log + Shared(entries, writable, items);
      Persist();
    }

    /** The loop over the ticket's own entries, in list order; it throws at a superseded one. */
    method ReviseTargets(r: Resolution) returns (threw: bool)
      requires NoDup(r.order) && forall id :: id in entries ==> id in r.order
      modifies `entries
      ensures threw <==> Stoppers(old(View()), r) != {}
      ensures threw ==> entries == HalfRevised(merge, old(View()), r)
      ensures !threw ==> entries == AllRevised(merge, old(View()), r)
    {
      ghost var start := View();
      RevisedNone(merge, start, r);
      for k := 0 to |r.order|
        invariant entries == RevisedIn(merge, start, r, r.order[..k])
        invariant forall j :: 0 <= j < k ==> r.order[j] !in Stoppers(start, r)
      {
        var id := r.order[k];
        RevisedNext(merge, start, r, k);
        if id in entries && Owned(entries[id], writable, r.ticket) {
          if entries[id].status == Superseded {
            StoppedAt(merge, start, r, k);
            return true;
          }
          entries := entries[id := Revised(merge, id, entries[id], r)];
        }
      }
      RevisedEvery(merge, start, r);
      return false;
    }

    method RecordResolution(r: Resolution) returns (threw: bool)
      requires NoDup(r.order) && forall id :: id in entries ==> id in r.order
      modifies this
      ensures (View(), threw) == Resolved(merge, old(View()), r)
    {
      var before := entries;
      threw := ReviseTargets(r);
      if threw {
        return;
      }
      if forall id :: id in before ==> !Owned(before[id], writable, r.ticket) {
        var item := Feedback(r.at, Success, r.newId, r.summary);
        entries := entries[r.newId := Entry(writable, Active, r.at, None, Stats(0, 1, 0), [item], r.ticket, r.body)];
      }
      assert entries == WithResolution(merge, old(View()), r);
      var items := Shared(entries, writable, FeedbackFor(before, r.used, r.at, Corrected, r.summary));
      threw := Apply(items);
      if threw {
        return;
      }
      log := log + items;
      Persist();
    }
  }

  /** The targets among `done` revised. */
  function RevisedIn(merge: (string, string) -> string, w: Wiki, r: Resolution, done: seq<string>): Entries {
    var targets := Targets(w, r);
    map id | id in w.entries ::
      if id in targets && id in done then Revised(merge, id, w.entries[id], r) else w.entries[id]
  }

  lemma {:induction false} RevisedNone(merge: (string, string) -> string, w: Wiki, r: Resolution)
    ensures RevisedIn(merge, w, r, r.order[..0]) == w.entries
  {
  }

  lemma {:induction false} RevisedEvery(merge: (string, string) -> string, w: Wiki, r: Resolution)
    requires forall id :: id in w.entries ==> id in r.order
    requires forall j :: 0 <= j < |r.order| ==> r.order[j] !in Stoppers(w, r)
    ensures RevisedIn(merge, w, r, r.order[..|r.order|]) == AllRevised(merge, w, r) && Stoppers(w, r) == {}
  {
    assert r.order[..|r.order|] == r.order;
  }

  lemma {:induction false} RevisedNext(merge: (string, string) -> string, w: Wiki, r: Resolution, k: nat)
    requires k < |r.order| && NoDup(r.order)
    ensures
      var m, id := RevisedIn(merge, w, r, r.order[..k]), r.order[k];
      && (id in Stoppers(w, r) <==>
            id in m && Owned(m[id], w.writable, r.ticket) && m[id].status == Superseded)
      && RevisedIn(merge, w, r, r.order[..k + 1]) ==
         if id in m && Owned(m[id], w.writable, r.ticket) then m[id := Revised(merge, id, m[id], r)] else m
  {
    var id := r.order[k];
    assert id !in r.order[..k];
    assert r.order[..k + 1] == r.order[..k] + [id];
  }

  /** The targets met before the first stopper are those listed before position `k`. */
  lemma {:induction false} StoppedAt(merge: (string, string) -> string, w: Wiki, r: Resolution, k: nat)
    requires k < |r.order| && r.order[k] in Stoppers(w, r)
    requires forall j :: 0 <= j < k ==> r.order[j] !in Stoppers(w, r)
    ensures HalfRevised(merge, w, r) == RevisedIn(merge, w, r, r.order[..k])
  {
    var stop := Stoppers(w, r);
    forall id ensures Reached(r.order, id, stop) <==> id in r.order[..k] {
      if Reached(r.order, id, stop) {
        var i :| 0 <= i < |r.order| && r.order[i] == id && forall j :: 0 <= j <= i ==> r.order[j] !in stop;
        assert i < k;
        assert r.order[..k][i] == id;
      }
    }
  }

  lemma {:induction false} ThrowStays(entries: Entries, items: seq<Feedback>, k: nat)
    requires k <= |items| && forall f :: f in items ==> f.entryId in entries
    requires LiveFold(entries, items[..k]).1
    ensures LiveFold(entries, items) == LiveFold(entries, items[..k])
    decreases |items|
  {
    if k == |items| {
      assert items[..k] == items;
    } else {
      assert items[..|items| - 1][..k] == items[..k];
      ThrowStays(entries, items[..|items| - 1], k);
    }
  }

  // ---- Runs -----------------------------------------------------------------------------

  datatype Op =
    | RecordUse(ids: seq<string>, at: string, summary: string)
    | RecordFailure(ids: seq<string>, at: string, summary: string)
    | RecordResolution(r: Resolution)

  /** A new page gets an id that no entry, page or log line carries. */
  predicate FreshId(w: Wiki, op: Op) {
    op.RecordResolution? ==>
      && op.r.newId !in w.entries && op.r.newId !in w.pages
      && forall f :: f in w.log ==> f.entryId != op.r.newId
  }

  function Do(merge: (string, string) -> string, w: Wiki, op: Op): (Wiki, bool) {
    match op
    case RecordUse(ids, at, summary) => Recorded(w, ids, at, Used, summary)
    case RecordFailure(ids, at, summary) => Recorded(w, ids, at, Failure, summary)
    case RecordResolution(r) => Resolved(merge, w, r)
  }

  /** Everything but the stamp the log does not carry. */
  function Forget(e: Entry): Entry {
    e.(lastUsedAt := None)
  }

  /** Two copies of an entry read the same after loading. */
  predicate ReadsAs(legacy: string -> bool, live: Entry, replayed: Entry) {
    live.layer == replayed.layer && Forget(Quarantine(legacy, live)) == Forget(Quarantine(legacy, replayed))
  }

  /** No log line asks a superseded page for a new status. */
  predicate Loadable(pages: Entries, log: seq<Feedback>) {
    forall f :: f in log && f.entryId in pages && pages[f.entryId].status == Superseded ==> Wanted(f.kind).None?
  }

  /** No log line names a page of the writable tier; lines that name no page are skipped by the load. */
  predicate SharedLog(writable: Layer, pages: Entries, log: seq<Feedback>) {
    forall f :: f in log && f.entryId in pages ==> pages[f.entryId].layer != writable
  }

  /** What every step of a run keeps: pages, log and live entries tell the same story. */
  ghost predicate InSync(legacy: string -> bool, w: Wiki) {
    && w.entries.Keys == w.pages.Keys
    && (forall id :: id in w.entries && w.entries[id].layer != w.writable ==>
          ReadsAs(legacy, w.entries[id], Replay(w.pages[id], w.log, id)))
    && (forall id :: id in w.entries && w.entries[id].layer == w.writable ==> w.pages[id] == w.entries[id])
    && Loadable(w.pages, w.log) && SharedLog(w.writable, w.pages, w.log)
  }

  /** What a reader sees: a fresh load succeeds and each entry reads as its live copy. */
  ghost predicate InStep(legacy: string -> bool, w: Wiki) {
    && !ReplayThrows(w.pages, w.log)
    && w.entries.Keys == w.pages.Keys
    && forall id :: id in w.entries ==>
         Forget(Fresh(legacy, w.pages, w.log)[id]) == Forget(Quarantine(legacy, w.entries[id]))
  }

  /** No feedback enters or leaves the superseded status. */
  lemma {:induction false} ReplaySuperseded(e: Entry, log: seq<Feedback>, id: string)
    ensures Replay(e, log, id).status == Superseded <==> e.status == Superseded
  {
    if log != [] { ReplaySuperseded(e, log[..|log| - 1], id); }
  }

  /** A load throws exactly when a logged failure or correction names a superseded page. */
  lemma {:induction false} LoadThrowsIff(pages: Entries, log: seq<Feedback>)
    ensures ReplayThrows(pages, log) <==> !Loadable(pages, log)
  {
    forall k | 0 <= k < |log|
      ensures ThrowsAt(pages, log, k) <==>
                log[k].entryId in pages && pages[log[k].entryId].status == Superseded && Wanted(log[k].kind).Some?
    {
      if log[k].entryId in pages { ReplaySuperseded(pages[log[k].entryId], log[..k], log[k].entryId); }
    }
    if !Loadable(pages, log) {
      var f :| f in log && f.entryId in pages && pages[f.entryId].status == Superseded && !Wanted(f.kind).None?;
      var k :| 0 <= k < |log| && log[k] == f;
      assert ThrowsAt(pages, log, k);
    }
  }

  lemma {:induction false} ReplayKeepsLayer(e: Entry, log: seq<Feedback>, id: string)
    ensures Replay(e, log, id).layer == e.layer && Replay(e, log, id).body == e.body
    ensures Replay(e, log, id).lastUsedAt == e.lastUsedAt
  {
    if log != [] { ReplayKeepsLayer(e, log[..|log| - 1], id); }
  }

  lemma {:induction false} ReplayUnnamed(e: Entry, log: seq<Feedback>, id: string)
    requires forall f :: f in log ==> f.entryId != id
    ensures Replay(e, log, id) == e
  {
    if log != [] { ReplayUnnamed(e, log[..|log| - 1], id); }
  }

  lemma {:induction false} ReplayAppend(e: Entry, a: seq<Feedback>, b: seq<Feedback>, id: string)
    ensures Replay(e, a + b, id) == Replay(Replay(e, a, id), b, id)
  {
    if b == [] {
      assert a + b == a;
    } else {
      var n := |b| - 1;
      assert (a + b)[..|a + b| - 1] == a + b[..n];
      ReplayAppend(e, a, b[..n], id);
    }
  }

  ghost predicate DistinctIds(items: seq<Feedback>) {
    forall i, j :: 0 <= i < j < |items| ==> items[i].entryId != items[j].entryId
  }

  ghost predicate Names(items: seq<Feedback>, id: string) {
    exists f :: f in items && f.entryId == id
  }

  /** Folding items for distinct entries touches each named entry once. */
  lemma {:induction false} FoldAt(entries: Entries, items: seq<Feedback>, id: string)
    requires forall f :: f in items ==> f.entryId in entries && !Refused(entries[f.entryId], f.kind)
    requires DistinctIds(items) && id in entries
    ensures !LiveFold(entries, items).1
    ensures forall f :: f in items && f.entryId == id ==> LiveFold(entries, items).0[id] == TouchLive(entries[id], f)
    ensures !Names(items, id) ==> LiveFold(entries, items).0[id] == entries[id]
  {
    if items != [] {
      var n := |items| - 1;
      var init, last := items[..n], items[n];
      assert items == init + [last];
      FoldAt(entries, init, id);
      FoldAt(entries, init, last.entryId);
      assert !Names(init, last.entryId);
      if Names(init, id) {
        var f :| f in init && f.entryId == id;
        assert f in items;
      }
    }
  }

  /** Replaying items for distinct entries does the same to the page. */
  lemma {:induction false} ReplayAt(e: Entry, items: seq<Feedback>, id: string)
    requires DistinctIds(items)
    ensures forall f :: f in items && f.entryId == id ==> Replay(e, items, id) == Touch(e, f)
    ensures !Names(items, id) ==> Replay(e, items, id) == e
  {
    if items != [] {
      var n := |items| - 1;
      var init, last := items[..n], items[n];
      assert items == init + [last];
      ReplayAt(e, init, id);
      if last.entryId == id {
        assert !Names(init, id);
      } else if Names(init, id) {
        var f :| f in init && f.entryId == id;
        assert f in items;
      }
    }
  }

  /** The same item keeps a live entry and its replayed page together. */
  lemma {:induction false} TouchAgrees(legacy: string -> bool, live: Entry, replayed: Entry, f: Feedback)
    requires ReadsAs(legacy, live, replayed) && !Refused(live, f.kind)
    ensures !Refused(replayed, f.kind) && ReadsAs(legacy, TouchLive(live, f), Touch(replayed, f))
  {
    assert live == replayed.(status := live.status, lastUsedAt := live.lastUsedAt);
    assert live.status == Superseded <==> replayed.status == Superseded;
    assert Touch(live, f) == Touch(replayed, f).(status := Touch(live, f).status, lastUsedAt := live.lastUsedAt);
    if Wanted(f.kind).Some? {
      assert Touch(live, f).status == Touch(replayed, f).status;
    }
  }

  /** `next` differs from the wiki's entries only in its writable tier, and the log names no new entry. */
  ghost predicate WritableEdit(w: Wiki, next: Entries) {
    && w.entries.Keys <= next.Keys
    && (forall id :: id in w.entries ==> next[id].layer == w.entries[id].layer)
    && (forall id :: id in w.entries && w.entries[id].layer != w.writable ==> next[id] == w.entries[id])
    && (forall id :: id in next && id !in w.entries ==> next[id].layer == w.writable && !Names(w.log, id))
  }

  /** `more` is the part of `items` that concerns entries outside the writable tier. */
  ghost predicate SharedPart(next: Entries, writable: Layer, items: seq<Feedback>, more: seq<Feedback>) {
    && DistinctIds(more)
    && forall f :: f in more <==> f in items && f.entryId in next && next[f.entryId].layer != writable
  }

  ghost predicate Accepted(next: Entries, items: seq<Feedback>) {
    DistinctIds(items) && forall f :: f in items ==> f.entryId in next && !Refused(next[f.entryId], f.kind)
  }

  lemma {:induction false} EditedAgrees(
    legacy: string -> bool, w: Wiki, next: Entries, items: seq<Feedback>, more: seq<Feedback>, id: string)
    requires InSync(legacy, w) && WritableEdit(w, next)
    requires Accepted(next, items) && SharedPart(next, w.writable, items, more)
    requires id in next && next[id].layer != w.writable
    ensures id in w.pages && ReadsAs(legacy, LiveFold(next, items).0[id], Replay(w.pages[id], w.log + more, id))
  {
    FoldAt(next, items, id);
    ReplayAppend(w.pages[id], w.log, more, id);
    ReplayAt(Replay(w.pages[id], w.log, id), more, id);
    assert ReadsAs(legacy, w.entries[id], Replay(w.pages[id], w.log, id));
    if Names(items, id) {
      var f :| f in items && f.entryId == id;
      assert f in more;
      TouchAgrees(legacy, next[id], Replay(w.pages[id], w.log, id), f);
    } else {
      UnnamedPart(next, w.writable, items, more, id);
    }
  }

  lemma {:induction false} UnnamedPart(
    next: Entries, writable: Layer, items: seq<Feedback>, more: seq<Feedback>, id: string)
    requires SharedPart(next, writable, items, more) && !Names(items, id)
    ensures !Names(more, id)
  {
  }

  lemma {:induction false} FoldSucceeds(next: Entries, items: seq<Feedback>)
    requires Accepted(next, items)
    ensures !LiveFold(next, items).1
  {
    if items != [] { FoldAt(next, items, items[0].entryId); }
  }

  /** A page outside the writable tier is superseded exactly when its live entry is. */
  lemma {:induction false} PageSuperseded(legacy: string -> bool, w: Wiki, id: string)
    requires InSync(legacy, w) && id in w.entries
    ensures w.pages[id].status == Superseded <==> w.entries[id].status == Superseded
    ensures w.pages[id].layer == w.entries[id].layer
  {
    ReplaySuperseded(w.pages[id], w.log, id);
    ReplayKeepsLayer(w.pages[id], w.log, id);
    if w.entries[id].layer != w.writable {
      assert ReadsAs(legacy, w.entries[id], Replay(w.pages[id], w.log, id));
    }
  }

  /** The new log stays loadable and about shared pages. */
  lemma {:induction false} LogStaysGood(
    legacy: string -> bool, w: Wiki, next: Entries, pages: Entries, more: seq<Feedback>)
    requires InSync(legacy, w) && WritableEdit(w, next) && next.Keys == pages.Keys
    requires forall f :: f in more ==> f.entryId in next && !Refused(next[f.entryId], f.kind)
    requires forall f :: f in more ==> next[f.entryId].layer != w.writable
    requires forall id :: id in next && next[id].layer != w.writable ==> id in w.pages && pages[id] == w.pages[id]
    ensures Loadable(pages, w.log + more) && SharedLog(w.writable, pages, w.log + more)
  {
    forall f | f in w.log + more && f.entryId in pages
      ensures pages[f.entryId].layer != w.writable && (pages[f.entryId].status == Superseded ==> Wanted(f.kind).None?)
    {
      var id := f.entryId;
      if f in w.log {
        assert Names(w.log, id);
        PageSuperseded(legacy, w, id);
        assert w.pages[id].layer != w.writable;
      } else {
        PageSuperseded(legacy, w, id);
      }
    }
  }

  /** Editing the writable tier, touching entries, logging the shared part and persisting keeps a load in step. */
  lemma {:induction false} StoreKeepsSync(
    legacy: string -> bool, w: Wiki, next: Entries, items: seq<Feedback>, more: seq<Feedback>)
    requires InSync(legacy, w) && WritableEdit(w, next)
    requires Accepted(next, items) && SharedPart(next, w.writable, items, more)
    ensures !LiveFold(next, items).1
    ensures InSync(legacy, Persisted(Wiki(w.writable, LiveFold(next, items).0, w.pages, w.log + more)))
  {
    FoldSucceeds(next, items);
    FoldKeepsLayers(next, items);
    var touched := LiveFold(next, items).0;
    forall id | id in next && next[id].layer != w.writable
      ensures id in w.pages && ReadsAs(legacy, touched[id], Replay(w.pages[id], w.log + more, id))
    {
      EditedAgrees(legacy, w, next, items, more, id);
    }
    PersistKeepsSync(legacy, w, next, touched, more);
  }

  lemma {:induction false} PersistKeepsSync(
    legacy: string -> bool, w: Wiki, next: Entries, touched: Entries, more: seq<Feedback>)
    requires InSync(legacy, w) && WritableEdit(w, next) && touched.Keys == next.Keys
    requires forall id :: id in next ==> touched[id].layer == next[id].layer
    requires forall f :: f in more ==> f.entryId in next && !Refused(next[f.entryId], f.kind)
    requires forall f :: f in more ==> next[f.entryId].layer != w.writable
    requires forall id :: id in next && next[id].layer != w.writable ==>
               id in w.pages && ReadsAs(legacy, touched[id], Replay(w.pages[id], w.log + more, id))
    ensures InSync(legacy, Persisted(Wiki(w.writable, touched, w.pages, w.log + more)))
  {
    var v := Persisted(Wiki(w.writable, touched, w.pages, w.log + more));
    assert v.entries.Keys == v.pages.Keys;
    LogStaysGood(legacy, w, next, v.pages, more);
  }

  lemma {:induction false} SharedFacts(entries: Entries, writable: Layer, items: seq<Feedback>)
    requires DistinctIds(items)
    ensures SharedPart(entries, writable, items, Shared(entries, writable, items))
  {
    SharedDistinct(entries, writable, items);
  }

  lemma {:induction false} SharedDistinct(entries: Entries, writable: Layer, items: seq<Feedback>)
    requires DistinctIds(items)
    ensures DistinctIds(Shared(entries, writable, items))
  {
    if items != [] {
      var n := |items| - 1;
      SharedDistinct(entries, writable, items[..n]);
      var init := Shared(entries, writable, items[..n]);
      forall i | 0 <= i < |init| ensures init[i].entryId != items[n].entryId {
        assert init[i] in items[..n];
      }
    }
  }

  /** A touch of entries is refused exactly when it asks a superseded one for a new status. */
  lemma {:induction false} FoldThrowsIff(entries: Entries, items: seq<Feedback>)
    requires DistinctIds(items) && forall f :: f in items ==> f.entryId in entries
    ensures LiveFold(entries, items).1 <==> !Accepted(entries, items)
  {
    if Accepted(entries, items) {
      FoldSucceeds(entries, items);
    } else {
      var n := |items| - 1;
      var init, last := items[..n], items[n];
      assert items == init + [last];
      FoldThrowsIff(entries, init);
      if Accepted(entries, init) {
        FoldAt(entries, init, last.entryId);
        assert !Names(init, last.entryId);
      }
    }
  }

  lemma {:induction false} FoldFrame(entries: Entries, items: seq<Feedback>, id: string)
    requires id in entries && !Names(items, id) && forall f :: f in items ==> f.entryId in entries
    ensures LiveFold(entries, items).0[id] == entries[id]
  {
    if items != [] {
      var n := |items| - 1;
      assert items == items[..n] + [items[n]];
      assert items[n] in items;
      FoldFrame(entries, items[..n], id);
    }
  }

  /** A refused touch still counts: some named entry has other counts than before. */
  lemma {:induction false} ThrowCounts(entries: Entries, items: seq<Feedback>) returns (id: string)
    requires DistinctIds(items) && forall f :: f in items ==> f.entryId in entries
    requires LiveFold(entries, items).1
    ensures Names(items, id) && id in entries && LiveFold(entries, items).0[id].stats != entries[id].stats
  {
    var n := |items| - 1;
    var init, last := items[..n], items[n];
    assert items == init + [last];
    if LiveFold(entries, init).1 {
      id := ThrowCounts(entries, init);
      var f :| f in init && f.entryId == id;
      assert f in items;
    } else {
      id := last.entryId;
      assert last in items;
      FoldFrame(entries, init, id);
    }
  }

  lemma {:induction false} NoEdit(legacy: string -> bool, w: Wiki)
    requires InSync(legacy, w)
    ensures WritableEdit(w, w.entries)
  {
  }

  /** Feedback throws exactly when it asks a superseded entry for a new status; a plain use never does. */
  lemma {:induction false} RecordThrowsIff(w: Wiki, ids: seq<string>, at: string, kind: Kind, summary: string)
    ensures Recorded(w, ids, at, kind, summary).1 <==>
              Wanted(kind).Some? && exists id :: id in ids && id in w.entries && w.entries[id].status == Superseded
  {
    var items := FeedbackFor(w.entries, ids, at, kind, summary);
    FoldThrowsIff(w.entries, items);
    if id :| id in ids && id in w.entries && w.entries[id].status == Superseded {
      assert Feedback(at, kind, id, summary) in items;
    }
  }

  lemma {:induction false} RecordKeepsSync(
    legacy: string -> bool, w: Wiki, ids: seq<string>, at: string, kind: Kind, summary: string)
    requires InSync(legacy, w) && !Recorded(w, ids, at, kind, summary).1
    ensures InSync(legacy, Recorded(w, ids, at, kind, summary).0)
  {
    var items := FeedbackFor(w.entries, ids, at, kind, summary);
    if items != [] {
      NoEdit(legacy, w);
      FoldThrowsIff(w.entries, items);
      var more := Shared(w.entries, w.writable, items);
      SharedFacts(w.entries, w.writable, items);
      StoreKeepsSync(legacy, w, w.entries, items, more);
      SharedSame(w, w.entries, items);
      RecordedAs(w, ids, at, kind, summary);
    }
  }

  /** Live counts that differ from those in step show up at the next load. */
  lemma {:induction false} OtherCounts(legacy: string -> bool, w: Wiki, live: Entries, id: string)
    requires InSync(legacy, w) && live.Keys == w.entries.Keys
    requires id in w.entries && live[id].stats != w.entries[id].stats
    ensures !InStep(legacy, w.(entries := live))
  {
    if w.entries[id].layer == w.writable {
      assert SharedLog(w.writable, w.pages, w.log);
      ReplayUnnamed(w.pages[id], w.log, id);
    } else {
      assert ReadsAs(legacy, w.entries[id], Replay(w.pages[id], w.log, id));
    }
    assert Fresh(legacy, w.pages, w.log)[id].stats == w.entries[id].stats;
  }

  lemma {:induction false} RecordBreaks(
    legacy: string -> bool, w: Wiki, ids: seq<string>, at: string, kind: Kind, summary: string)
    requires InSync(legacy, w) && Recorded(w, ids, at, kind, summary).1
    ensures !InStep(legacy, Recorded(w, ids, at, kind, summary).0)
  {
    var items := FeedbackFor(w.entries, ids, at, kind, summary);
    var id := ThrowCounts(w.entries, items);
    OtherCounts(legacy, w, LiveFold(w.entries, items).0, id);
  }

  lemma {:induction false} RecordedAs(w: Wiki, ids: seq<string>, at: string, kind: Kind, summary: string)
    requires
      var items := FeedbackFor(w.entries, ids, at, kind, summary);
      items != [] && !LiveFold(w.entries, items).1
    ensures
      var items := FeedbackFor(w.entries, ids, at, kind, summary);
      var touched := LiveFold(w.entries, items).0;
      Recorded(w, ids, at, kind, summary) ==
        (Persisted(Wiki(w.writable, touched, w.pages, w.log + Shared(touched, w.writable, items))), false)
  {
  }

  lemma {:induction false} FoldKeepsLayers(entries: Entries, items: seq<Feedback>)
    requires forall f :: f in items ==> f.entryId in entries
    ensures forall id :: id in entries ==> LiveFold(entries, items).0[id].layer == entries[id].layer
  {
    if items != [] { FoldKeepsLayers(entries, items[..|items| - 1]); }
  }

  /** Touching entries does not change which feedback is shared. */
  lemma {:induction false} SharedSame(w: Wiki, next: Entries, items: seq<Feedback>)
    requires forall f :: f in items ==> f.entryId in next
    ensures Shared(LiveFold(next, items).0, w.writable, items) == Shared(next, w.writable, items)
  {
    FoldKeepsLayers(next, items);
    SharedByLayer(LiveFold(next, items).0, next, w.writable, items);
  }

  lemma {:induction false} SharedByLayer(a: Entries, b: Entries, writable: Layer, items: seq<Feedback>)
    requires a.Keys == b.Keys && forall id :: id in a ==> a[id].layer == b[id].layer
    ensures Shared(a, writable, items) == Shared(b, writable, items)
  {
    if items != [] { SharedByLayer(a, b, writable, items[..|items| - 1]); }
  }

  predicate Corrects(w: Wiki, r: Resolution, id: string) {
    id in r.used && id in w.entries && w.entries[id].layer != w.writable
  }

  /** The corrections a resolution sends to the shared entries it used. */
  function Corrections(merge: (string, string) -> string, w: Wiki, r: Resolution): seq<Feedback> {
    var all := FeedbackFor(w.entries, r.used, r.at, Corrected, r.summary);
    Shared(WithResolution(merge, w, r), w.writable, all)
  }

  lemma {:induction false} CorrectionsNamed(merge: (string, string) -> string, w: Wiki, r: Resolution, id: string)
    requires FreshId(w, RecordResolution(r))
    ensures Names(Corrections(merge, w, r), id) <==> Corrects(w, r, id)
    ensures Corrects(w, r, id) ==> id in WithResolution(merge, w, r) && WithResolution(merge, w, r)[id] == w.entries[id]
  {
    var next := WithResolution(merge, w, r);
    var f := Feedback(r.at, Corrected, id, r.summary);
    assert f in Corrections(merge, w, r) <==>
           id in r.used && id in w.entries && id in next && next[id].layer != w.writable;
  }

  lemma {:induction false} CorrectionsShape(merge: (string, string) -> string, w: Wiki, r: Resolution)
    ensures
      var items, next := Corrections(merge, w, r), WithResolution(merge, w, r);
      && DistinctIds(items) && SharedPart(next, w.writable, items, items)
      && forall f :: f in items ==> f.entryId in next && f.kind == Corrected
  {
    var all := FeedbackFor(w.entries, r.used, r.at, Corrected, r.summary);
    SharedFacts(WithResolution(merge, w, r), w.writable, all);
  }

  lemma {:induction false} CorrectionsAccepted(merge: (string, string) -> string, w: Wiki, r: Resolution)
    requires FreshId(w, RecordResolution(r))
    ensures Accepted(WithResolution(merge, w, r), Corrections(merge, w, r)) <==>
              forall id :: Corrects(w, r, id) ==> w.entries[id].status != Superseded
  {
    var items, next := Corrections(merge, w, r), WithResolution(merge, w, r);
    CorrectionsShape(merge, w, r);
    forall id ensures Corrects(w, r, id) <==> Names(items, id) { CorrectionsNamed(merge, w, r, id); }
    forall f | f in items ensures Corrects(w, r, f.entryId) && next[f.entryId] == w.entries[f.entryId] {
      assert Names(items, f.entryId);
      CorrectionsNamed(merge, w, r, f.entryId);
    }
  }

  lemma {:induction false} ResolvedAs(merge: (string, string) -> string, w: Wiki, r: Resolution)
    ensures Stoppers(w, r) != {} ==> Resolved(merge, w, r) == (w.(entries := HalfRevised(merge, w, r)), true)
    ensures
      var (touched, threw) := LiveFold(WithResolution(merge, w, r), Corrections(merge, w, r));
      Stoppers(w, r) == {} ==>
        Resolved(merge, w, r) ==
          if threw then (w.(entries := touched), true)
          else (Persisted(Wiki(w.writable, touched, w.pages, w.log + Corrections(merge, w, r))), false)
  {
  }

  /** A resolution throws exactly when it would revise, or correct a shared copy of, a superseded entry. */
  lemma {:induction false} ResolveThrowsIff(merge: (string, string) -> string, w: Wiki, r: Resolution)
    requires FreshId(w, RecordResolution(r))
    ensures Resolved(merge, w, r).1 <==>
              exists id :: id in w.entries && w.entries[id].status == Superseded &&
                           (id in Targets(w, r) || Corrects(w, r, id))
  {
    CorrectionsShape(merge, w, r);
    CorrectionsAccepted(merge, w, r);
    FoldThrowsIff(WithResolution(merge, w, r), Corrections(merge, w, r));
    ResolvedAs(merge, w, r);
    if Stoppers(w, r) != {} {
      var id :| id in Stoppers(w, r);
      assert id in w.entries && w.entries[id].status == Superseded && id in Targets(w, r);
    } else {
      forall id | id in Targets(w, r) ensures w.entries[id].status != Superseded { assert id !in Stoppers(w, r); }
    }
  }

  lemma {:induction false} ResolutionEdits(merge: (string, string) -> string, w: Wiki, r: Resolution)
    requires FreshId(w, RecordResolution(r))
    ensures WritableEdit(w, WithResolution(merge, w, r))
  {
  }

  lemma {:induction false} ResolveKeepsSync(
    legacy: string -> bool, merge: (string, string) -> string, w: Wiki, r: Resolution)
    requires InSync(legacy, w) && FreshId(w, RecordResolution(r)) && !Resolved(merge, w, r).1
    ensures InSync(legacy, Resolved(merge, w, r).0)
  {
    var next, items := WithResolution(merge, w, r), Corrections(merge, w, r);
    ResolutionEdits(merge, w, r);
    CorrectionsShape(merge, w, r);
    FoldThrowsIff(next, items);
    ResolvedAs(merge, w, r);
    StoreKeepsSync(legacy, w, next, items, items);
  }

  /** A throw after a target was revised, or at a correction, leaves changes the pages do not have. */
  lemma {:induction false} ResolveBreaks(
    legacy: string -> bool, merge: (string, string) -> string, w: Wiki, r: Resolution)
    requires InSync(legacy, w) && FreshId(w, RecordResolution(r)) && Resolved(merge, w, r).1
    requires Stoppers(w, r) == {} || exists id :: id in Targets(w, r) && Reached(r.order, id, Stoppers(w, r))
    ensures !InStep(legacy, Resolved(merge, w, r).0)
  {
    ResolvedAs(merge, w, r);
    if Stoppers(w, r) != {} {
      var id :| id in Targets(w, r) && Reached(r.order, id, Stoppers(w, r));
      OtherCounts(legacy, w, HalfRevised(merge, w, r), id);
    } else {
      var next, items := WithResolution(merge, w, r), Corrections(merge, w, r);
      CorrectionsShape(merge, w, r);
      var id := ThrowCounts(next, items);
      CorrectionsNamed(merge, w, r, id);
      CorrectionBreaks(legacy, w, next, LiveFold(next, items).0, id);
    }
  }

  lemma {:induction false} CorrectionBreaks(
    legacy: string -> bool, w: Wiki, next: Entries, live: Entries, id: string)
    requires InSync(legacy, w) && w.entries.Keys <= next.Keys == live.Keys
    requires id in w.entries && w.entries[id].layer != w.writable && live[id].stats != w.entries[id].stats
    ensures !InStep(legacy, w.(entries := live))
  {
    assert ReadsAs(legacy, w.entries[id], Replay(w.pages[id], w.log, id));
    if live.Keys == w.pages.Keys { OtherCounts(legacy, w, live, id); }
  }

  /** The wiki after some operations. */
  function AfterOps(merge: (string, string) -> string, w: Wiki, ops: seq<Op>): Wiki {
    if ops == [] then w else Do(merge, AfterOps(merge, w, ops[..|ops| - 1]), ops[|ops| - 1]).0
  }

  /** Each new page gets a fresh id. */
  predicate FreshIds(merge: (string, string) -> string, w: Wiki, ops: seq<Op>) {
    ops == [] || (FreshIds(merge, w, ops[..|ops| - 1]) && FreshId(AfterOps(merge, w, ops[..|ops| - 1]), ops[|ops| - 1]))
  }

  /**
   * The operation throws with something already changed, seen from the state it starts in: a failure names a
   * superseded entry; a resolution owns a superseded entry and another listed before it, or owns none and used a
   * superseded shared one.
   */
  predicate Breaks(w: Wiki, op: Op) {
    match op
    case RecordUse(_, _, _) => false
    case RecordFailure(ids, _, _) => exists id :: id in ids && id in w.entries && w.entries[id].status == Superseded
    case RecordResolution(r) =>
      if Stoppers(w, r) != {} then exists id :: id in Targets(w, r) && Reached(r.order, id, Stoppers(w, r))
      else exists id :: id in w.entries && Corrects(w, r, id) && w.entries[id].status == Superseded
  }

  /** No operation of the run breaks, each judged in the state it starts in. */
  predicate Unbroken(merge: (string, string) -> string, w: Wiki, ops: seq<Op>) {
    ops == [] ||
    (Unbroken(merge, w, ops[..|ops| - 1]) && !Breaks(AfterOps(merge, w, ops[..|ops| - 1]), ops[|ops| - 1]))
  }

  /** One operation leaves the load in step with the live entries exactly when it does not break. */
  lemma {:induction false} OpKeepsSyncIff(
    legacy: string -> bool, merge: (string, string) -> string, w: Wiki, op: Op)
    requires InSync(legacy, w) && FreshId(w, op)
    ensures !Breaks(w, op) ==> InSync(legacy, Do(merge, w, op).0)
    ensures Breaks(w, op) ==> Do(merge, w, op).1 && !InStep(legacy, Do(merge, w, op).0)
    ensures Do(merge, w, op).1 && !Breaks(w, op) ==> Do(merge, w, op).0 == w
  {
    match op
    case RecordUse(ids, at, summary) =>
      RecordThrowsIff(w, ids, at, Used, summary);
      RecordKeepsSync(legacy, w, ids, at, Used, summary);
    case RecordFailure(ids, at, summary) =>
      RecordThrowsIff(w, ids, at, Failure, summary);
      if Recorded(w, ids, at, Failure, summary).1 {
        RecordBreaks(legacy, w, ids, at, Failure, summary);
      } else {
        RecordKeepsSync(legacy, w, ids, at, Failure, summary);
      }
    case RecordResolution(r) => ResolutionKeepsSyncIff(legacy, merge, w, r);
  }

  lemma {:induction false} ResolutionKeepsSyncIff(
    legacy: string -> bool, merge: (string, string) -> string, w: Wiki, r: Resolution)
    requires InSync(legacy, w) && FreshId(w, RecordResolution(r))
    ensures !Breaks(w, RecordResolution(r)) ==> InSync(legacy, Resolved(merge, w, r).0)
    ensures Breaks(w, RecordResolution(r)) ==> Resolved(merge, w, r).1 && !InStep(legacy, Resolved(merge, w, r).0)
    ensures Resolved(merge, w, r).1 && !Breaks(w, RecordResolution(r)) ==> Resolved(merge, w, r).0 == w
  {
    BreaksIff(merge, w, r);
    if !Resolved(merge, w, r).1 {
      ResolveKeepsSync(legacy, merge, w, r);
    } else if Breaks(w, RecordResolution(r)) {
      ResolveBreaks(legacy, merge, w, r);
    }
  }

  /** A resolution that throws breaks, unless a superseded target stops it before it changed anything. */
  lemma {:induction false} BreaksIff(merge: (string, string) -> string, w: Wiki, r: Resolution)
    requires FreshId(w, RecordResolution(r))
    ensures Breaks(w, RecordResolution(r)) <==>
              Resolved(merge, w, r).1 &&
              (Stoppers(w, r) == {} || exists id :: id in Targets(w, r) && Reached(r.order, id, Stoppers(w, r)))
    ensures Resolved(merge, w, r).1 && !Breaks(w, RecordResolution(r)) ==> Resolved(merge, w, r).0 == w
  {
    ResolveThrowsIff(merge, w, r);
    ResolvedAs(merge, w, r);
    if Stoppers(w, r) == {} {
      forall id | id in w.entries && w.entries[id].status == Superseded ensures id !in Targets(w, r) {
        assert id !in Stoppers(w, r);
      }
    } else if !Breaks(w, RecordResolution(r)) {
      assert HalfRevised(merge, w, r) == w.entries;
    }
  }

  lemma {:induction false} OpsKeepSync(
    legacy: string -> bool, merge: (string, string) -> string, w: Wiki, ops: seq<Op>)
    requires InSync(legacy, w) && FreshIds(merge, w, ops) && Unbroken(merge, w, ops)
    ensures InSync(legacy, AfterOps(merge, w, ops))
  {
    if ops != [] {
      OpsKeepSync(legacy, merge, w, ops[..|ops| - 1]);
      OpKeepsSyncIff(legacy, merge, AfterOps(merge, w, ops[..|ops| - 1]), ops[|ops| - 1]);
    }
  }

  ghost predicate AlwaysInStep(legacy: string -> bool, merge: (string, string) -> string, w: Wiki, ops: seq<Op>) {
    InStep(legacy, AfterOps(merge, w, ops)) && (ops != [] ==> AlwaysInStep(legacy, merge, w, ops[..|ops| - 1]))
  }

  /** A run stays in step with a fresh load all along exactly when none of its operations breaks. */
  lemma {:induction false} InStepIffUnbroken(
    legacy: string -> bool, merge: (string, string) -> string, w: Wiki, ops: seq<Op>)
    requires InSync(legacy, w) && FreshIds(merge, w, ops)
    ensures AlwaysInStep(legacy, merge, w, ops) <==> Unbroken(merge, w, ops)
  {
    if ops == [] {
      InSyncIsInStep(legacy, w);
    } else {
      var init := ops[..|ops| - 1];
      InStepIffUnbroken(legacy, merge, w, init);
      if Unbroken(merge, w, init) {
        OpsKeepSync(legacy, merge, w, init);
        OpKeepsSyncIff(legacy, merge, AfterOps(merge, w, init), ops[|ops| - 1]);
        if !Breaks(AfterOps(merge, w, init), ops[|ops| - 1]) {
          InSyncIsInStep(legacy, AfterOps(merge, w, ops));
        }
      }
    }
  }

  lemma {:induction false} InSyncIsInStep(legacy: string -> bool, v: Wiki)
    requires InSync(legacy, v)
    ensures InStep(legacy, v)
  {
    LoadThrowsIff(v.pages, v.log);
    forall id | id in v.entries
      ensures Forget(Fresh(legacy, v.pages, v.log)[id]) == Forget(Quarantine(legacy, v.entries[id]))
    {
      if v.entries[id].layer == v.writable {
        assert SharedLog(v.writable, v.pages, v.log);
        ReplayUnnamed(v.pages[id], v.log, id);
      } else {
        assert ReadsAs(legacy, v.entries[id], Replay(v.pages[id], v.log, id));
      }
    }
  }

  /** A store that loads, and whose log names no page of the writable tier. */
  predicate CleanStore(writable: Layer, pages: Entries, log: seq<Feedback>) {
    Loadable(pages, log) && SharedLog(writable, pages, log)
  }

  lemma {:induction false} ReplayedPage(
    writable: Layer, legacy: string -> bool, pages: Entries, log: seq<Feedback>, id: string)
    requires CleanStore(writable, pages, log) && id in pages
    ensures Replay(pages[id], log, id).layer == pages[id].layer
    ensures pages[id].layer == writable ==> Replay(pages[id], log, id) == pages[id]
    ensures
      var r := Replay(pages[id], log, id);
      Quarantine(legacy, Quarantine(legacy, r)) == Quarantine(legacy, r)
  {
    ReplayKeepsLayer(pages[id], log, id);
    if pages[id].layer == writable { ReplayUnnamed(pages[id], log, id); }
  }

  lemma {:induction false} PersistedAt(w: Wiki, id: string)
    requires w.entries.Keys == w.pages.Keys && id in w.pages
    ensures Persisted(w).pages.Keys == w.pages.Keys
    ensures Persisted(w).pages[id] == if w.entries[id].layer == w.writable then w.entries[id] else w.pages[id]
  {
  }

  lemma {:induction false} OpenedShape(
    writable: Layer, legacy: string -> bool, pages: Entries, log: seq<Feedback>, id: string)
    requires CleanStore(writable, pages, log) && id in pages
    ensures
      var w := Opened(writable, legacy, pages, log);
      && w.entries.Keys == w.pages.Keys == pages.Keys && w.writable == writable && w.log == log
      && w.entries[id] == Quarantine(legacy, Replay(pages[id], log, id))
      && w.pages[id] == if pages[id].layer == writable then w.entries[id] else pages[id]
  {
    ReplayedPage(writable, legacy, pages, log, id);
    PersistedAt(Wiki(writable, Fresh(legacy, pages, log), pages, log), id);
  }

  lemma {:induction false} OpenedInSync(writable: Layer, legacy: string -> bool, pages: Entries, log: seq<Feedback>)
    requires CleanStore(writable, pages, log)
    ensures InSync(legacy, Opened(writable, legacy, pages, log))
  {
    var w := Opened(writable, legacy, pages, log);
    assert w.writable == writable && w.log == log;
    forall id | id in pages ensures OpenedEntry(writable, legacy, w, pages, log, id) {
      OpenedShape(writable, legacy, pages, log, id);
      ReplayedPage(writable, legacy, pages, log, id);
    }
    assert w.entries.Keys == pages.Keys;
    assert w.pages.Keys == pages.Keys;
    OpenedEntriesInSync(writable, legacy, w, pages);
  }

  ghost predicate OpenedEntry(
    writable: Layer, legacy: string -> bool, w: Wiki, pages: Entries, log: seq<Feedback>, id: string)
  {
    && id in pages && id in w.entries && id in w.pages
    && w.entries[id].layer == pages[id].layer
    && w.pages[id] == (if pages[id].layer == writable then w.entries[id] else pages[id])
    && ReadsAs(legacy, w.entries[id], Replay(pages[id], log, id))
    && (pages[id].status == Superseded <==> w.pages[id].status == Superseded)
  }

  lemma {:induction false} OpenedEntriesInSync(writable: Layer, legacy: string -> bool, w: Wiki, pages: Entries)
    requires CleanStore(writable, pages, w.log) && w.writable == writable
    requires w.entries.Keys == w.pages.Keys == pages.Keys
    requires forall id :: id in pages ==> OpenedEntry(writable, legacy, w, pages, w.log, id)
    ensures InSync(legacy, w)
  {
    forall f | f in w.log && f.entryId in w.pages
      ensures w.pages[f.entryId].layer != writable && (w.pages[f.entryId].status == Superseded ==> Wanted(f.kind).None?)
    {
      assert OpenedEntry(writable, legacy, w, pages, w.log, f.entryId);
    }
  }

  /**
   * Replay agrees with the live state. Open a clean store, perform any operations that do not break, load
   * afresh: every entry reads as its live copy, up to the live-only stamp, unless the live copy is an active
   * merged solution, which the load alone sends back to review.
   */
  lemma {:induction false} ReplayAgreesWithLive(
    writable: Layer, legacy: string -> bool, merge: (string, string) -> string,
    pages: Entries, log: seq<Feedback>, ops: seq<Op>, id: string)
    requires CleanStore(writable, pages, log)
    requires FreshIds(merge, Opened(writable, legacy, pages, log), ops)
    requires Unbroken(merge, Opened(writable, legacy, pages, log), ops)
    requires id in AfterOps(merge, Opened(writable, legacy, pages, log), ops).entries
    ensures
      var v := AfterOps(merge, Opened(writable, legacy, pages, log), ops);
      !ReplayThrows(v.pages, v.log) && id in Fresh(legacy, v.pages, v.log)
    ensures
      var v := AfterOps(merge, Opened(writable, legacy, pages, log), ops);
      var live, loaded := v.entries[id], Fresh(legacy, v.pages, v.log)[id];
      && loaded.stats == live.stats && loaded.updatedAt == live.updatedAt && loaded.feedback == live.feedback
      && (loaded.status == live.status <==> !(live.status == Active && legacy(live.body)))
      && Forget(loaded) == Forget(Quarantine(legacy, live))
  {
    OpenedInSync(writable, legacy, pages, log);
    OpsKeepSync(legacy, merge, Opened(writable, legacy, pages, log), ops);
    InSyncIsInStep(legacy, AfterOps(merge, Opened(writable, legacy, pages, log), ops));
  }

  function Mentions(log: seq<Feedback>, id: string, kinds: set<Kind>): nat {
    if log == [] then 0
    else
      Mentions(log[..|log| - 1], id, kinds) +
      if log[|log| - 1].entryId == id && log[|log| - 1].kind in kinds then 1 else 0
  }

  /** Counting: a replayed entry holds its page's counts plus one for each log item that names it. */
  lemma {:induction false} ReplayCounts(e: Entry, log: seq<Feedback>, id: string)
    ensures
      var r := Replay(e, log, id);
      && r.stats.uses == e.stats.uses + Mentions(log, id, {Used})
      && r.stats.failures == e.stats.failures + Mentions(log, id, {Failure})
      && r.stats.successes == e.stats.successes + Mentions(log, id, {Success, Corrected})
  {
    if log != [] { ReplayCounts(e, log[..|log| - 1], id); }
  }

  /** The external entry used once while the project tier is writable. */
  function UsedUnderProject(legacy: string -> bool, page: Entry): Wiki {
    Recorded(Opened(Project, legacy, map["e" := page], []), ["e"], "1", Used, "s").0
  }

  /** The same store reopened with the external tier writable, and the entry used again. */
  function UsedUnderExternal(legacy: string -> bool, page: Entry): Wiki {
    var w := UsedUnderProject(legacy, page);
    Recorded(Opened(External, legacy, w.pages, w.log), ["e"], "2", Used, "s").0
  }

  lemma {:induction false} UsedUnderProjectShape(legacy: string -> bool, page: Entry)
    requires page.layer == External && page.status == NeedsReview
    ensures
      var w := UsedUnderProject(legacy, page);
      w.pages == map["e" := page] && w.log == [Feedback("1", Used, "e", "s")]
  {
    var start := Opened(Project, legacy, map["e" := page], []);
    assert start == Wiki(Project, map["e" := page], map["e" := page], []);
    OneSharedUse(start, "1");
  }

  lemma {:induction false} OneSharedUse(w: Wiki, at: string)
    requires w.entries.Keys == {"e"} == w.pages.Keys && w.entries["e"].layer != w.writable
    ensures
      var v := Recorded(w, ["e"], at, Used, "s").0;
      v.pages == w.pages && v.log == w.log + [Feedback(at, Used, "e", "s")]
  {
    OneUse(w, at);
    PersistedAt(w.(entries := Recorded(w, ["e"], at, Used, "s").0.entries), "e");
  }

  lemma {:induction false} ReopenedShape(legacy: string -> bool, page: Entry, f: Feedback)
    requires page.layer == External && page.status == NeedsReview && f.kind == Used && f.entryId == "e"
    ensures
      var w := Opened(External, legacy, map["e" := page], [f]);
      w.writable == External && w.entries == map["e" := Touch(page, f)] && w.log == [f] && w.pages.Keys == {"e"}
  {
    LoggedUse(legacy, page, f);
    assert Fresh(legacy, map["e" := page], [f]) == map["e" := Touch(page, f)];
  }

  lemma {:induction false} UsedUnderExternalShape(legacy: string -> bool, page: Entry)
    requires page.layer == External && page.status == NeedsReview
    ensures
      var w := UsedUnderExternal(legacy, page);
      var f, g := Feedback("1", Used, "e", "s"), Feedback("2", Used, "e", "s");
      && w.entries == map["e" := TouchLive(Touch(page, f), g)]
      && w.log == [f] && w.pages == w.entries
  {
    UsedUnderProjectShape(legacy, page);
    var f := Feedback("1", Used, "e", "s");
    ReopenedShape(legacy, page, f);
    OneWritableUse(Opened(External, legacy, map["e" := page], [f]), "2");
  }

  lemma {:induction false} OneWritableUse(w: Wiki, at: string)
    requires w.entries.Keys == {"e"} == w.pages.Keys && w.entries["e"].layer == w.writable
    ensures
      var v := Recorded(w, ["e"], at, Used, "s").0;
      v.entries == map["e" := TouchLive(w.entries["e"], Feedback(at, Used, "e", "s"))] && v.log == w.log &&
          v.pages == v.entries
  {
    OneUse(w, at);
    PersistedAt(w.(entries := Recorded(w, ["e"], at, Used, "s").0.entries), "e");
  }

  /**
   * Changing the writable tier breaks the count: one use logged as shared is counted again once the tier owns the
   * page.
   */
  lemma {:induction false} TierChangeCountsTwice(legacy: string -> bool, page: Entry)
    requires page.layer == External && page.stats == Stats(0, 0, 0) && page.status == NeedsReview
    ensures
      var w := UsedUnderExternal(legacy, page);
      && "e" in w.entries && w.entries["e"].stats.uses == 2
      && "e" in Fresh(legacy, w.pages, w.log) && Fresh(legacy, w.pages, w.log)["e"].stats.uses == 3
  {
    UsedUnderExternalShape(legacy, page);
    var w := UsedUnderExternal(legacy, page);
    LoggedUse(legacy, w.pages["e"], Feedback("1", Used, "e", "s"));
  }

  lemma {:induction false} LoggedUse(legacy: string -> bool, page: Entry, f: Feedback)
    requires f.kind == Used && f.entryId == "e" && page.status == NeedsReview
    ensures Replay(page, [f], "e") == Touch(page, f)
    ensures Quarantine(legacy, Replay(page, [f], "e")).stats.uses == page.stats.uses + 1
  {
    assert [f][..0] == [];
  }

  /** A single use of entry `e`. */
  lemma {:induction false} OneUse(w: Wiki, at: string)
    requires "e" in w.entries
    ensures
      var f := Feedback(at, Used, "e", "s");
      var v := Recorded(w, ["e"], at, Used, "s").0;
      && v.entries == w.entries["e" := TouchLive(w.entries["e"], f)]
      && v.log == w.log + (if w.entries["e"].layer != w.writable then [f] else [])
      && v == Persisted(w.(entries := v.entries, log := v.log))
  {
    var f := Feedback(at, Used, "e", "s");
    assert ["e"][..0] == [];
    assert FeedbackFor(w.entries, ["e"], at, Used, "s") == [f];
    var touched := w.entries["e" := TouchLive(w.entries["e"], f)];
    assert [f][..0] == [];
    assert LiveFold(w.entries, [f]) == (touched, false);
    assert Shared(touched, w.writable, [f]) == if touched["e"].layer != w.writable then [f] else [];
  }

  lemma {:induction false} NoMentions(log: seq<Feedback>, id: string)
    ensures Names(log, id) <==>
              Mentions(log, id, {Used}) + Mentions(log, id, {Failure}) + Mentions(log, id, {Success, Corrected}) > 0
  {
    if log != [] {
      var n := |log| - 1;
      assert log == log[..n] + [log[n]];
      NoMentions(log[..n], id);
      NamesInit(log[..n], log[n], id);
      var k := log[n].kind;
      assert k == Used || k == Failure || k == Success || k == Corrected;
    }
  }

  lemma {:induction false} NamesInit(init: seq<Feedback>, last: Feedback, id: string)
    ensures Names(init + [last], id) <==> Names(init, id) || last.entryId == id
  {
    if Names(init, id) {
      var f :| f in init && f.entryId == id;
      assert f in init + [last];
    }
    if last.entryId == id { assert last in init + [last]; }
  }

  /** An entry the writable tier has persisted loads with its live counts exactly when no log line names it. */
  lemma {:induction false} PersistedCountsIff(legacy: string -> bool, w: Wiki, id: string)
    requires id in w.entries && w.entries[id].layer == w.writable
    ensures
      var v := Persisted(w);
      id in v.pages &&
      (Fresh(legacy, v.pages, v.log)[id].stats == w.entries[id].stats <==> !Names(w.log, id))
  {
    ReplayCounts(w.entries[id], w.log, id);
    NoMentions(w.log, id);
  }

  /** A refused failure on a superseded entry is counted live but never logged. */
  lemma {:induction false} SupersededDiverges(w: Wiki, id: string, at: string)
    requires id in w.entries && w.entries[id].status == Superseded
    ensures
      var (v, threw) := Recorded(w, [id], at, Failure, "s");
      && threw && v.log == w.log && v.pages == w.pages
      && v.entries[id].stats.failures == w.entries[id].stats.failures + 1
  {
    var f := Feedback(at, Failure, id, "s");
    assert [id][..0] == [];
    assert FeedbackFor(w.entries, [id], at, Failure, "s") == [f];
    assert [f][..0] == [];
    assert LiveFold(w.entries, [f]) == (w.entries[id := TouchLive(w.entries[id], f)], true);
  }

  // ---- Merged solutions -----------------------------------------------------------------

  const MERGE_MARK := "Corrected/confirmed resolution:"

  predicate StandsAt(s: string, i: nat, t: string) {
    i + |t| <= |s| && s[i..i + |t|] == t
  }

  predicate Includes(s: string, t: string) {
    exists i :: 0 <= i <= |s| && StandsAt(s, i, t)
  }

  /** `mergeSolution`: a text that says something new is appended behind the mark. */
  function MergeSolution(previous: string, next: string): string {
    var trimmed := Trim(next);
    if trimmed == [] || Includes(previous, trimmed) then previous
    else if Trim(previous) == [] then trimmed
    else Trim(previous) + ("\n" + MERGE_MARK + " " + trimmed)
  }

  /** `hasLegacyMergedSolutions`: splitting at the mark gives more than two parts. */
  predicate IsMergedTwice(solution: string) {
    exists i, j :: 0 <= i <= |solution| && i + |MERGE_MARK| <= j <= |solution| &&
                   StandsAt(solution, i, MERGE_MARK) && StandsAt(solution, j, MERGE_MARK)
  }

  /** `t` is a part of `s`. */
  lemma {:induction false} IncludedIsPart(s: string, t: string)
    ensures Includes(s, t) <==> exists a, b :: s == a + (t + b)
  {
    if i :| 0 <= i <= |s| && StandsAt(s, i, t) {
      assert s == s[..i] + (s[i..i + |t|] + s[i + |t|..]);
    }
    if a, b :| s == a + (t + b) {
      assert s[|a|..|a| + |t|] == t;
      assert StandsAt(s, |a|, t);
    }
  }

  /** The mark splits the solution into more than two parts. */
  lemma {:induction false} MergedTwiceIsThreeParts(s: string)
    ensures IsMergedTwice(s) <==> exists a, b, c :: s == a + (MERGE_MARK + (b + (MERGE_MARK + c)))
  {
    var m := MERGE_MARK;
    if i, j :| 0 <= i <= |s| && i + |m| <= j <= |s| && StandsAt(s, i, m) && StandsAt(s, j, m) {
      ThreeParts(s, m, i, j);
    }
    if a, b, c :| s == a + (m + (b + (m + c))) {
      var j := |a| + |m| + |b|;
      assert s[|a|..|a| + |m|] == m && s[j..j + |m|] == m;
      assert StandsAt(s, |a|, m) && StandsAt(s, j, m);
    }
  }

  lemma {:induction false} ThreeParts(s: string, m: string, i: nat, j: nat)
    requires i + |m| <= j && StandsAt(s, i, m) && StandsAt(s, j, m)
    ensures s == s[..i] + (m + (s[i + |m|..j] + (m + s[j + |m|..])))
  {
    assert s[j..] == s[j..j + |m|] + s[j + |m|..];
    assert s[i..] == s[i..i + |m|] + (s[i + |m|..j] + s[j..]);
    assert s == s[..i] + s[i..];
  }

  /** Merging changes a solution exactly when the text says something new, and the same text once only. */
  lemma {:induction false} MergedIffNew(previous: string, next: string)
    requires Trimmed(previous)
    ensures MergeSolution(previous, next) == previous <==> Trim(next) == [] || Includes(previous, Trim(next))
    ensures MergeSolution(MergeSolution(previous, next), next) == MergeSolution(previous, next)
  {
    hide Includes, TrimStart, TrimEnd;
    TrimTrims(previous);
    var merged, text := MergeSolution(previous, next), Trim(next);
    if text != [] && !Includes(previous, text) {
      IncludedIsPart(merged, text);
      assert merged == (previous + ("\n" + MERGE_MARK + " ")) + (text + []);
    }
  }

  lemma {:induction false} MergeAppends(previous: string, next: string)
    requires Trimmed(previous) && Trimmed(next) && !Includes(previous, next)
    ensures
      var merged := MergeSolution(previous, next);
      && previous <= merged && StandsAt(merged, |previous| + 1, MERGE_MARK) && Trimmed(merged)
  {
    TrimTrims(previous);
    TrimTrims(next);
    var merged := MergeSolution(previous, next);
    assert merged == previous + "\n" + MERGE_MARK + " " + next;
    assert merged[|merged| - 1] == next[|next| - 1];
  }

  lemma {:induction false} PrefixStands(s: string, longer: string, i: nat, t: string)
    requires StandsAt(s, i, t) && s <= longer
    ensures StandsAt(longer, i, t)
  {
    assert longer[..|s|][i..i + |t|] == longer[i..i + |t|];
  }

  /** The third text that says something new makes the solution a merged one. */
  lemma {:induction false} ThirdTextMerges(a: string, b: string, c: string)
    requires Trimmed(a) && Trimmed(b) && Trimmed(c) && !Includes(a, b) && !Includes(MergeSolution(a, b), c)
    ensures IsMergedTwice(MergeSolution(MergeSolution(a, b), c))
  {
    hide MergeSolution, Includes, StandsAt, Trimmed;
    MergeAppends(a, b);
    MergeAppends(MergeSolution(a, b), c);
    PrefixStands(MergeSolution(a, b), MergeSolution(MergeSolution(a, b), c), |a| + 1, MERGE_MARK);
    MarkFits(MergeSolution(a, b), |a| + 1);
    MarkFits(MergeSolution(MergeSolution(a, b), c), |MergeSolution(a, b)| + 1);
  }

  lemma {:induction false} MarkFits(s: string, i: nat)
    requires StandsAt(s, i, MERGE_MARK)
    ensures i + |MERGE_MARK| <= |s|
  {
  }

  /** A ticket confirms a repair and used no shared entry. */
  function Confirms(ticket: string, newId: string, order: seq<string>, at: string, text: string): Resolution {
    Resolution(Some(ticket), [], newId, order, at, text, "s")
  }

  lemma {:induction false} FirstConfirmation(merge: (string, string) -> string, w: Wiki, r: Resolution)
    requires w.entries == w.pages == map[] && w.log == [] && r.used == []
    ensures Resolved(merge, w, r).0 == Wiki(w.writable, map[r.newId := Created(w, r)], map[r.newId := Created(w, r)],
        [])
  {
    assert Targets(w, r) == {} && Stoppers(w, r) == {};
    assert WithResolution(merge, w, r) == map[r.newId := Created(w, r)];
    assert FeedbackFor(w.entries, [], r.at, Corrected, r.summary) == [];
  }

  lemma {:induction false} LaterConfirmation(
    merge: (string, string) -> string, w: Wiki, r: Resolution, id: string, e: Entry)
    requires w.entries == w.pages == map[id := e] && w.log == [] && r.used == []
    requires Owned(e, w.writable, r.ticket) && e.status == Active
    ensures
      var next := map[id := Revised(merge, id, e, r)];
      Resolved(merge, w, r).0 == Wiki(w.writable, next, next, [])
  {
    hide Revised;
    assert Targets(w, r) == {id} && Stoppers(w, r) == {};
    var next := map[id := Revised(merge, id, e, r)];
    assert AllRevised(merge, w, r) == next;
    assert FeedbackFor(w.entries, [], r.at, Corrected, r.summary) == [];
    RevisedStaysOwned(merge, id, e, r);
    assert Persisted(Wiki(w.writable, next, w.pages, [])).pages == next;
  }

  lemma {:induction false} RevisedStaysOwned(merge: (string, string) -> string, id: string, e: Entry, r: Resolution)
    ensures Revised(merge, id, e, r).layer == e.layer && Revised(merge, id, e, r).ticket == e.ticket
    ensures Revised(merge, id, e, r).status == Active
    ensures e.status == Active ==> Revised(merge, id, e, r).body == merge(e.body, r.body)
  {
  }

  /** One ticket confirms its repair three times, in a store that starts empty. */
  function ThreeConfirmations(a: string, b: string, c: string): seq<Op> {
    [RecordResolution(Confirms("T-1", "e1", [], "1", a)),
     RecordResolution(Confirms("T-1", "e2", ["e1"], "2", b)),
     RecordResolution(Confirms("T-1", "e3", ["e1"], "3", c))]
  }

  lemma {:induction false} ConfirmedThrice(merge: (string, string) -> string, w: Wiki, a: string, b: string, c: string)
    requires w.entries == w.pages == map[] && w.log == []
    ensures
      var v := AfterOps(merge, w, ThreeConfirmations(a, b, c));
      && v.entries == v.pages && v.log == [] && v.entries.Keys == {"e1"}
      && v.entries["e1"].status == Active && v.entries["e1"].body == merge(merge(a, b), c)
  {
    hide Resolved, Revised;
    var ops := ThreeConfirmations(a, b, c);
    var e1 := Created(w, ops[0].r);
    FirstConfirmation(merge, w, ops[0].r);
    var w1 := Resolved(merge, w, ops[0].r).0;
    LaterConfirmation(merge, w1, ops[1].r, "e1", e1);
    RevisedStaysOwned(merge, "e1", e1, ops[1].r);
    var w2, e2 := Resolved(merge, w1, ops[1].r).0, Revised(merge, "e1", e1, ops[1].r);
    LaterConfirmation(merge, w2, ops[2].r, "e1", e2);
    RevisedStaysOwned(merge, "e1", e2, ops[2].r);
    assert ops[..2][..1] == ops[..1];
    assert ops[..1][..0] == [];
    assert AfterOps(merge, w, ops[..1]) == w1;
    assert AfterOps(merge, w, ops[..2]) == w2;
  }

  /** A ticket confirms three texts, each new: its entry is active live, and under review after a load. */
  lemma {:induction false} ThirdConfirmationQuarantined(writable: Layer, a: string, b: string, c: string)
    requires Trimmed(a) && Trimmed(b) && Trimmed(c) && !Includes(a, b) && !Includes(MergeSolution(a, b), c)
    ensures
      var w := AfterOps(MergeSolution, Opened(writable, IsMergedTwice, map[], []), ThreeConfirmations(a, b, c));
      && "e1" in w.entries && w.entries["e1"].status == Active
      && !ReplayThrows(w.pages, w.log) && "e1" in Fresh(IsMergedTwice, w.pages, w.log)
      && Fresh(IsMergedTwice, w.pages, w.log)["e1"].status == NeedsReview
  {
    hide MergeSolution, Includes, Trimmed, IsMergedTwice, ThreeConfirmations, AfterOps;
    var start := Opened(writable, IsMergedTwice, map[], []);
    assert Fresh(IsMergedTwice, map[], []) == map[];
    assert start == Wiki(writable, map[], map[], []);
    ConfirmedThrice(MergeSolution, start, a, b, c);
    ThirdTextMerges(a, b, c);
  }

  lemma {:induction false} LettersIncluded(s: string, t: string, k: nat)
    requires k < |t|
    ensures Includes(s, t) ==> t[k] in s
  {
    if i :| 0 <= i <= |s| && StandsAt(s, i, t) { assert s[i + k] == s[i..i + |t|][k]; }
  }

  /** Such a run: three confirmations of one ticket. */
  lemma {:induction false} QuarantineWitness(writable: Layer)
    ensures
      var ops := ThreeConfirmations("fix X", "fix Y", "fix Z");
      var w := AfterOps(MergeSolution, Opened(writable, IsMergedTwice, map[], []), ops);
      && "e1" in w.entries && w.entries["e1"].status == Active
      && !ReplayThrows(w.pages, w.log) && "e1" in Fresh(IsMergedTwice, w.pages, w.log)
      && Fresh(IsMergedTwice, w.pages, w.log)["e1"].status == NeedsReview
  {
    hide AfterOps, Opened, Fresh, ReplayThrows, ThreeConfirmations, Includes;
    var a, b, c := "fix X", "fix Y", "fix Z";
    LettersIncluded(a, b, 4);
    TrimTrims(a);
    TrimTrims(b);
    assert MergeSolution(a, b) == a + ("\n" + MERGE_MARK + " " + b);
    LettersIncluded(MergeSolution(a, b), c, 4);
    ThirdConfirmationQuarantined(writable, a, b, c);
  }
}
