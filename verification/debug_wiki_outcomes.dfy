/** What each wiki operation leaves behind, entry by entry, and what a log makes of a page. */
module WikiOutcomes {
  import opened Basics
  import opened DebugWiki

  // ---- Recorded uses and failures -------------------------------------------------------

  /** One item of feedback on an entry, told field by field. */
  ghost predicate Reflects(before: Entry, after: Entry, f: Feedback) {
    && after.status == (match f.kind
                        case Failure => NeedsReview
                        case Corrected => Active
                        case _ => before.status)
    && after.stats.uses == before.stats.uses + (if f.kind == Used then 1 else 0)
    && after.stats.failures == before.stats.failures + (if f.kind == Failure then 1 else 0)
    && after.stats.successes == before.stats.successes + (if f.kind == Success || f.kind == Corrected then 1 else 0)
    && after.updatedAt == f.at
    && after.feedback != [] && after.feedback[|after.feedback| - 1] == f
    && after.layer == before.layer && after.ticket == before.ticket && after.body == before.body
  }

  lemma {:induction false} TouchReflects(e: Entry, f: Feedback)
    requires !Refused(e, f.kind)
    ensures Reflects(e, TouchLive(e, f), f) && Reflects(e, Touch(e, f), f)
    ensures TouchLive(e, f).lastUsedAt == if f.kind == Used then Some(f.at) else e.lastUsedAt
  {
  }

  /**
   * Recorded feedback that does not throw reaches exactly the entries it names: a failure puts them under review, a
   * use changes no status, each is counted once, and all others stay as they were.
   */
  lemma {:induction false} RecordedEffect(
    w: Wiki, ids: seq<string>, at: string, kind: Kind, summary: string, id: string)
    requires !Recorded(w, ids, at, kind, summary).1 && id in w.entries
    ensures
      var v := Recorded(w, ids, at, kind, summary).0;
      && v.entries.Keys == w.entries.Keys
      && (id in ids ==> Reflects(w.entries[id], v.entries[id], Feedback(at, kind, id, summary)) &&
                        v.entries[id].lastUsedAt == if kind == Used then Some(at) else w.entries[id].lastUsedAt)
      && (id !in ids ==> v.entries[id] == w.entries[id])
  {
    hide Persisted, Shared, Touch, Refused;
    var items := FeedbackFor(w.entries, ids, at, kind, summary);
    FoldThrowsIff(w.entries, items);
    assert id in ids ==> Feedback(at, kind, id, summary) in items;
    if items != [] {
      FoldAt(w.entries, items, id);
      var f := Feedback(at, kind, id, summary);
      if id in ids {
        assert f in items;
        TouchReflects(w.entries[id], f);
      } else {
        assert !Names(items, id);
      }
      RecordedAs(w, ids, at, kind, summary);
      PersistKeepsEntries(Wiki(w.writable, LiveFold(w.entries, items).0, w.pages,
          w.log + Shared(LiveFold(w.entries, items).0, w.writable, items)));
    }
  }

  lemma {:induction false} PersistKeepsEntries(w: Wiki)
    ensures Persisted(w).entries == w.entries && Persisted(w).log == w.log && Persisted(w).writable == w.writable
    ensures forall id :: id in w.entries && w.entries[id].layer == w.writable ==>
      id in Persisted(w).pages && Persisted(w).pages[id] == w.entries[id]
  {
  }

  /** What is logged: the items on the named entries outside the writable tier, each once, behind the old log. */
  lemma {:induction false} RecordedLog(w: Wiki, ids: seq<string>, at: string, kind: Kind, summary: string)
    requires !Recorded(w, ids, at, kind, summary).1
    ensures
      var v := Recorded(w, ids, at, kind, summary).0;
      && w.log <= v.log && DistinctIds(v.log[|w.log|..])
      && forall f :: f in v.log[|w.log|..] <==>
                       f.entryId in ids && f.entryId in w.entries && w.entries[f.entryId].layer != w.writable &&
                       f == Feedback(at, kind, f.entryId, summary)
  {
    hide LiveFold, Persisted;
    var items := FeedbackFor(w.entries, ids, at, kind, summary);
    if items != [] {
      var touched := LiveFold(w.entries, items).0;
      var more := Shared(touched, w.writable, items);
      RecordedAs(w, ids, at, kind, summary);
      PersistKeepsEntries(Wiki(w.writable, touched, w.pages, w.log + more));
      SharedSame(w, w.entries, items);
      SharedFacts(w.entries, w.writable, items);
      assert (w.log + more)[|w.log|..] == more;
    } else {
      assert w.log[|w.log|..] == [];
      forall f: Feedback | f.entryId in ids && f.entryId in w.entries
        ensures f != Feedback(at, kind, f.entryId, summary) {
        assert Feedback(at, kind, f.entryId, summary) !in items;
      }
    }
  }

  lemma {:induction false} FeedbackPrefix(
    entries: Entries, ids: seq<string>, at: string, kind: Kind, summary: string, n: nat)
    requires n <= |ids|
    ensures FeedbackFor(entries, ids[..n], at, kind, summary) <= FeedbackFor(entries, ids, at, kind, summary)
    decreases |ids|
  {
    if n == |ids| {
      assert ids[..n] == ids;
    } else {
      assert ids[..|ids| - 1][..n] == ids[..n];
      FeedbackPrefix(entries, ids[..|ids| - 1], at, kind, summary, n);
    }
  }

  /**
   * A failure stops at the first superseded entry it names: the entries named before it are under review, it is
   * counted and nothing else, the ones after it are untouched, and neither log nor pages know of any of this.
   */
  lemma {:induction false} FailureStops(w: Wiki, ids: seq<string>, at: string, summary: string, k: nat, id: string)
    requires k < |ids| && ids[k] in w.entries && w.entries[ids[k]].status == Superseded && id in w.entries
    requires forall j :: 0 <= j < k && ids[j] in w.entries ==> w.entries[ids[j]].status != Superseded
    ensures
      var (v, threw) := Recorded(w, ids, at, Failure, summary);
      && threw && v.log == w.log && v.pages == w.pages && id in v.entries
      && var e := w.entries[id];
         if id == ids[k] then v.entries[id] == e.(stats := e.stats.(failures := e.stats.failures + 1))
         else if id in ids[..k] then Reflects(e, v.entries[id], Feedback(at, Failure, id, summary))
         else v.entries[id] == e
  {
    hide Persisted, Shared, Reflects, PushFeedback, FeedbackFor, LiveFold, TouchLive;
    var items, before := FeedbackFor(w.entries, ids, at, Failure, summary),
        FeedbackFor(w.entries, ids[..k], at, Failure, summary);
    var f := Feedback(at, Failure, ids[k], summary);
    assert ids[k] !in ids[..k];
    ItemsUpTo(w.entries, ids, at, summary, k);
    FoldAt(w.entries, before, id);
    FoldAt(w.entries, before, ids[k]);
    FoldStops(w.entries, items, before, f);
    RefusedCounts(w.entries[ids[k]], f);
    if id in ids[..k] {
      assert Feedback(at, Failure, id, summary) in before;
      TouchReflects(w.entries[id], Feedback(at, Failure, id, summary));
    }
  }

  lemma {:induction false} RefusedCounts(e: Entry, f: Feedback)
    requires e.status == Superseded && f.kind == Failure
    ensures Refused(e, Failure) && TouchLive(e, f) == e.(stats := e.stats.(failures := e.stats.failures + 1))
  {
  }

  lemma {:induction false} ItemsUpTo(entries: Entries, ids: seq<string>, at: string, summary: string, k: nat)
    requires k < |ids| && ids[k] in entries && ids[k] !in ids[..k]
    ensures FeedbackFor(entries, ids[..k], at, Failure, summary) + [Feedback(at, Failure, ids[k], summary)] <=
            FeedbackFor(entries, ids, at, Failure, summary)
  {
    assert ids[..k + 1][..k] == ids[..k];
    FeedbackPrefix(entries, ids, at, Failure, summary, k + 1);
  }

  lemma {:induction false} FoldStops(entries: Entries, items: seq<Feedback>, before: seq<Feedback>, f: Feedback)
    requires before + [f] <= items && forall g :: g in items ==> g.entryId in entries
    requires (forall g :: g in before ==> g.entryId in entries) && f.entryId in entries
    requires !LiveFold(entries, before).1 && Refused(LiveFold(entries, before).0[f.entryId], f.kind)
    ensures
      var m := LiveFold(entries, before).0;
      LiveFold(entries, items) == (m[f.entryId := TouchLive(m[f.entryId], f)], true)
  {
    hide TouchLive, Refused;
    var n := |before|;
    assert items[..n + 1] == before + [f] && items[..n + 1][..n] == before;
    ThrowStays(entries, items, n + 1);
  }

  /**
   * After any operations that do not break, a failure recorded without throwing puts every entry it names under
   * review, in the live store and after a fresh load.
   */
  lemma {:induction false} FailureMeansReview(
    writable: Layer, legacy: string -> bool, merge: (string, string) -> string, pages: Entries, log: seq<Feedback>,
    ops: seq<Op>, ids: seq<string>, at: string, summary: string, id: string)
    requires CleanStore(writable, pages, log)
    requires FreshIds(merge, Opened(writable, legacy, pages, log), ops)
    requires Unbroken(merge, Opened(writable, legacy, pages, log), ops)
    requires
      var w := AfterOps(merge, Opened(writable, legacy, pages, log), ops);
      id in ids && id in w.entries && !Do(merge, w, RecordFailure(ids, at, summary)).1
    ensures
      var v := AfterOps(merge, Opened(writable, legacy, pages, log), ops + [RecordFailure(ids, at, summary)]);
      && id in v.entries && v.entries[id].status == NeedsReview
      && id in Fresh(legacy, v.pages, v.log) && Fresh(legacy, v.pages, v.log)[id].status == NeedsReview
  {
    hide Fresh, Opened, InSync, Recorded, Reflects, CleanStore;
    var start, op := Opened(writable, legacy, pages, log), RecordFailure(ids, at, summary);
    var w := AfterOps(merge, start, ops);
    assert (ops + [op])[..|ops + [op]| - 1] == ops;
    OpenedInSync(writable, legacy, pages, log);
    OpsKeepSync(legacy, merge, start, ops);
    ReviewAtOnce(legacy, w, ids, at, summary, id);
  }

  lemma {:induction false} ReviewAtOnce(
    legacy: string -> bool, w: Wiki, ids: seq<string>, at: string, summary: string, id: string)
    requires InSync(legacy, w) && id in ids && id in w.entries && !Recorded(w, ids, at, Failure, summary).1
    ensures
      var v := Recorded(w, ids, at, Failure, summary).0;
      && id in v.entries && v.entries[id].status == NeedsReview
      && id in Fresh(legacy, v.pages, v.log) && Fresh(legacy, v.pages, v.log)[id].status == NeedsReview
  {
    hide Fresh, InSync, Recorded, PushFeedback, InStep;
    RecordedEffect(w, ids, at, Failure, summary, id);
    RecordKeepsSync(legacy, w, ids, at, Failure, summary);
    ReviewStays(legacy, Recorded(w, ids, at, Failure, summary).0, id);
  }

  lemma {:induction false} ReviewStays(legacy: string -> bool, w: Wiki, id: string)
    requires InSync(legacy, w) && id in w.entries && w.entries[id].status == NeedsReview
    ensures id in Fresh(legacy, w.pages, w.log) && Fresh(legacy, w.pages, w.log)[id].status == NeedsReview
  {
    hide InSync, PushFeedback, Replay, ReplayThrows;
    InSyncIsInStep(legacy, w);
    assert id in Fresh(legacy, w.pages, w.log);
    assert Forget(Fresh(legacy, w.pages, w.log)[id]).status == NeedsReview;
  }

  // ---- Resolutions ----------------------------------------------------------------------

  /** The ticket of the resolution owns this writable entry. */
  predicate OwnEntry(w: Wiki, r: Resolution, id: string) {
    id in w.entries && w.entries[id].layer == w.writable && r.ticket.Some? && w.entries[id].ticket == r.ticket
  }

  /**
   * A resolution that does not throw makes its ticket's own entries active with the new text, replacing a disputed
   * one; makes every shared entry it used active; leaves all others as they were; and adds an active entry of its own
   * exactly when the ticket had none.
   */
  lemma {:induction false} ResolvedEffect(merge: (string, string) -> string, w: Wiki, r: Resolution, id: string)
    requires FreshId(w, RecordResolution(r)) && !Resolved(merge, w, r).1 && id in w.entries
    ensures id in Resolved(merge, w, r).0.entries
    ensures
      var before, after := w.entries[id], Resolved(merge, w, r).0.entries[id];
      if OwnEntry(w, r, id) then
        && after.status == Active && after.updatedAt == r.at
        && after.body == (if before.status == NeedsReview then r.body else merge(before.body, r.body))
        && after.stats == before.stats.(successes := before.stats.successes + 1)
        && after.layer == before.layer && after.ticket == before.ticket
        && after.feedback != [] && after.feedback[|after.feedback| - 1] ==
           Feedback(r.at, if before.stats.failures == 0 then Success else Corrected, id, r.summary)
      else if id in r.used && before.layer != w.writable then
        Reflects(before, after, Feedback(r.at, Corrected, id, r.summary)) && after.status == Active
      else after == before
  {
    hide Persisted, Touch, Refused, Shared, PushFeedback, LiveFold, WithResolution;
    var next, items := WithResolution(merge, w, r), Corrections(merge, w, r);
    ResolvedAs(merge, w, r);
    CorrectionsShape(merge, w, r);
    FoldThrowsIff(next, items);
    ResolutionAt(merge, w, r, id);
    FoldAt(next, items, id);
    CorrectionsNamed(merge, w, r, id);
    PersistKeepsEntries(Wiki(w.writable, LiveFold(next, items).0, w.pages, w.log + items));
    if Corrects(w, r, id) {
      var f :| f in items && f.entryId == id;
      CorrectionIs(merge, w, r, f);
      TouchReflects(next[id], f);
    }
  }

  lemma {:induction false} CorrectionIs(merge: (string, string) -> string, w: Wiki, r: Resolution, f: Feedback)
    requires f in Corrections(merge, w, r)
    ensures f == Feedback(r.at, Corrected, f.entryId, r.summary)
  {
  }

  lemma {:induction false} ResolutionAt(merge: (string, string) -> string, w: Wiki, r: Resolution, id: string)
    requires FreshId(w, RecordResolution(r)) && id in w.entries
    ensures id in WithResolution(merge, w, r)
    ensures
      var before, after := w.entries[id], WithResolution(merge, w, r)[id];
      if OwnEntry(w, r, id) then
        && after.status == Active && after.updatedAt == r.at
        && after.body == (if before.status == NeedsReview then r.body else merge(before.body, r.body))
        && after.stats == before.stats.(successes := before.stats.successes + 1)
        && after.layer == before.layer && after.ticket == before.ticket
        && after.feedback != [] && after.feedback[|after.feedback| - 1] ==
           Feedback(r.at, if before.stats.failures == 0 then Success else Corrected, id, r.summary)
      else after == before
  {
    hide PushFeedback;
    PushedIsLast(w.entries[id].feedback, Feedback(r.at, if w.entries[id].stats.failures > 0 then Corrected else Success,
        id, r.summary));
    assert OwnEntry(w, r, id) <==> id in Targets(w, r);
  }

  lemma {:induction false} PushedIsLast(history: seq<Feedback>, f: Feedback)
    ensures PushFeedback(history, f) != [] && PushFeedback(history, f)[|PushFeedback(history, f)| - 1] == f
  {
  }

  /** No superseded entry of the ticket is listed up to the place of `id`. */
  ghost predicate ListedBeforeStop(w: Wiki, r: Resolution, id: string) {
    exists k :: 0 <= k < |r.order| && r.order[k] == id &&
                forall j :: 0 <= j <= k ==> !(OwnEntry(w, r, r.order[j]) && w.entries[r.order[j]].status == Superseded)
  }

  /**
   * A resolution whose ticket owns a superseded entry throws there: exactly the ticket's entries listed before it are
   * revised, and neither log nor pages know of it.
   */
  lemma {:induction false} ResolutionStops(
    merge: (string, string) -> string, w: Wiki, r: Resolution, stop: string, id: string)
    requires OwnEntry(w, r, stop) && w.entries[stop].status == Superseded && id in w.entries
    ensures
      var (v, threw) := Resolved(merge, w, r);
      && threw && v.log == w.log && v.pages == w.pages && id in v.entries
      && if OwnEntry(w, r, id) && ListedBeforeStop(w, r, id) then
           && v.entries[id].status == Active && v.entries[id].updatedAt == r.at
           && v.entries[id].stats == w.entries[id].stats.(successes := w.entries[id].stats.successes + 1)
         else v.entries[id] == w.entries[id]
  {
    hide PushFeedback, Persisted, Shared, LiveFold;
    forall x ensures x in Stoppers(w, r) <==> OwnEntry(w, r, x) && w.entries[x].status == Superseded {
      assert x in Targets(w, r) <==> OwnEntry(w, r, x);
    }
    assert stop in Stoppers(w, r);
    SameReach(w, r, id);
    ResolvedAs(merge, w, r);
    assert OwnEntry(w, r, id) <==> id in Targets(w, r);
  }

  lemma {:induction false} SameReach(w: Wiki, r: Resolution, id: string)
    requires forall x :: x in Stoppers(w, r) <==> OwnEntry(w, r, x) && w.entries[x].status == Superseded
    ensures Reached(r.order, id, Stoppers(w, r)) <==> ListedBeforeStop(w, r, id)
  {
    hide Stoppers, OwnEntry;
  }

  /** The new entry, and when there is one. */
  lemma {:induction false} ResolvedCreates(merge: (string, string) -> string, w: Wiki, r: Resolution)
    requires FreshId(w, RecordResolution(r)) && !Resolved(merge, w, r).1
    ensures
      var v := Resolved(merge, w, r).0;
      if exists id :: OwnEntry(w, r, id) then v.entries.Keys == w.entries.Keys
      else
        && v.entries.Keys == w.entries.Keys + {r.newId}
        && v.entries[r.newId].layer == w.writable && v.entries[r.newId].status == Active
        && v.entries[r.newId].ticket == r.ticket && v.entries[r.newId].body == r.body
        && v.entries[r.newId].stats == Stats(0, 1, 0)
        && v.entries[r.newId].feedback == [Feedback(r.at, Success, r.newId, r.summary)]
  {
    hide Persisted, Touch, Refused, Shared, PushFeedback, LiveFold, WithResolution, Corrections;
    var next, items := WithResolution(merge, w, r), Corrections(merge, w, r);
    ResolvedAs(merge, w, r);
    CorrectionsShape(merge, w, r);
    FoldThrowsIff(next, items);
    NewEntry(merge, w, r);
    PersistKeepsEntries(Wiki(w.writable, LiveFold(next, items).0, w.pages, w.log + items));
    CorrectionsNamed(merge, w, r, r.newId);
    if r.newId in next { FoldAt(next, items, r.newId); }
  }

  lemma {:induction false} NewEntry(merge: (string, string) -> string, w: Wiki, r: Resolution)
    requires FreshId(w, RecordResolution(r))
    ensures
      var next := WithResolution(merge, w, r);
      if exists id :: OwnEntry(w, r, id) then next.Keys == w.entries.Keys
      else
        && next.Keys == w.entries.Keys + {r.newId}
        && next[r.newId].layer == w.writable && next[r.newId].status == Active
        && next[r.newId].ticket == r.ticket && next[r.newId].body == r.body && next[r.newId].stats == Stats(0, 1, 0)
        && next[r.newId].feedback == [Feedback(r.at, Success, r.newId, r.summary)]
  {
    forall id ensures OwnEntry(w, r, id) <==> id in Targets(w, r) {}
    if id :| OwnEntry(w, r, id) { assert id in Targets(w, r); }
  }

  // ---- What a log makes of a page -------------------------------------------------------

  /**
   * The last logged failure or correction of a page decides its replayed status; without one the page keeps its own.
   */
  lemma {:induction false} LastVerdictDecides(e: Entry, log: seq<Feedback>, id: string)
    requires e.status != Superseded
    ensures
      (forall j :: 0 <= j < |log| && log[j].entryId == id ==> log[j].kind == Used || log[j].kind == Success) ==>
        Replay(e, log, id).status == e.status
    ensures forall k :: 0 <= k < |log| && IsLastVerdict(log, id, k) ==>
      Replay(e, log, id).status == if log[k].kind == Failure then NeedsReview else Active
  {
    if log != [] {
      var n := |log| - 1;
      LastVerdictDecides(e, log[..n], id);
      ReplaySuperseded(e, log[..n], id);
      forall k | 0 <= k < |log| && IsLastVerdict(log, id, k)
        ensures Replay(e, log, id).status == if log[k].kind == Failure then NeedsReview else Active
      {
        if k < n { assert IsLastVerdict(log[..n], id, k); }
      }
    }
  }

  ghost predicate IsLastVerdict(log: seq<Feedback>, id: string, k: nat)
    requires k < |log|
  {
    && log[k].entryId == id && (log[k].kind == Failure || log[k].kind == Corrected)
    && forall j :: k < j < |log| && log[j].entryId == id ==> log[j].kind == Used || log[j].kind == Success
  }

  /** The items that name an entry, in order. */
  function Naming(log: seq<Feedback>, id: string): seq<Feedback> {
    if log == [] then []
    else
      var n := |log| - 1;
      Naming(log[..n], id) + if log[n].entryId == id then [log[n]] else []
  }

  function LastTwenty(items: seq<Feedback>): seq<Feedback> {
    items[if |items| > 20 then |items| - 20 else 0..]
  }

  /** A replayed entry shows the last twenty items of its page and the log. */
  lemma {:induction false} ReplayKeepsTwenty(e: Entry, log: seq<Feedback>, id: string)
    requires e.status != Superseded && |e.feedback| <= 20
    ensures Replay(e, log, id).feedback == LastTwenty(e.feedback + Naming(log, id))
  {
    if log == [] {
      assert e.feedback + [] == e.feedback;
    } else {
      var n := |log| - 1;
      ReplayKeepsTwenty(e, log[..n], id);
      ReplaySuperseded(e, log[..n], id);
      if log[n].entryId == id {
        var items := e.feedback + Naming(log[..n], id);
        assert e.feedback + Naming(log, id) == items + [log[n]];
        PushLast(items, log[n]);
      }
    }
  }

  lemma {:induction false} PushLast(items: seq<Feedback>, f: Feedback)
    ensures PushFeedback(LastTwenty(items), f) == LastTwenty(items + [f])
  {
  }
}
