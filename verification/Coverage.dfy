/** Effectively-once: a consumer's read model is the sum over exactly the events it has
    processed, however often and in whatever order they were delivered. */
module Coverage {
  import opened Sequences
  import opened Amounts
  import opened Journal
  import opened Balances
  import opened Store
  import opened Invariants
  import opened Projection
  import opened Reconciler

  function Contribution(e: Event, k: Key): int {
    if e.payload.JournalPosted? then Net(e.payload.entry.postings, k) else 0
  }

  /** Net effect on a cell of those events of a log whose ids are in `ids`. */
  function Covered(events: seq<Event>, ids: set<EventId>, k: Key): int {
    if events == [] then 0
    else
      var last := events[|events| - 1];
      Covered(events[..|events| - 1], ids, k) + if last.id in ids then Contribution(last, k) else 0
  }

  predicate IsJournal(events: seq<Event>, id: EventId) {
    exists i :: 0 <= i < |events| && events[i].id == id && events[i].payload.JournalPosted?
  }

  /** The projection invariant for one consumer. */
  ghost predicate ConsumerSound(events: seq<Event>, t: Tables, c: ConsumerName) {
    && (forall id :: id in Processed(t, c) ==> IsJournal(events, id))
    && (forall k :: Get(View(t, c), k) == Covered(events, Processed(t, c), k))
  }

  ghost predicate ProjectionSound(events: seq<Event>, t: Tables) {
    forall c :: ConsumerSound(events, t, c)
  }

  lemma {:induction false} CoveredNothing(events: seq<Event>, k: Key)
    ensures Covered(events, {}, k) == 0
  {
    if events != [] { CoveredNothing(events[..|events| - 1], k); }
  }

  /** Ids outside the log add nothing. */
  lemma {:induction false} CoveredOutside(events: seq<Event>, ids: set<EventId>, id: EventId, k: Key)
    requires forall i :: 0 <= i < |events| ==> events[i].id != id
    ensures Covered(events, ids + {id}, k) == Covered(events, ids, k)
  {
    if events != [] { CoveredOutside(events[..|events| - 1], ids, id, k); }
  }

  /** Processing one more event adds exactly its own contribution. */
  lemma {:induction false} CoveredAdd(events: seq<Event>, ids: set<EventId>, i: nat, k: Key)
    requires DistinctIds(events) && i < |events| && events[i].id !in ids
    ensures Covered(events, ids + {events[i].id}, k) == Covered(events, ids, k) + Contribution(events[i], k)
  {
    var n := |events| - 1;
    if i < n {
      CoveredAdd(events[..n], ids, i, k);
    } else {
      CoveredOutside(events[..n], ids, events[n].id, k);
    }
  }

  /** New events nobody has processed change nothing. */
  lemma {:induction false} CoveredExtend(events: seq<Event>, more: seq<Event>, ids: set<EventId>, k: Key)
    requires forall i :: 0 <= i < |more| ==> more[i].id !in ids
    ensures Covered(events + more, ids, k) == Covered(events, ids, k)
  {
    if more == [] {
      assert events + more == events;
    } else {
      var n := |more| - 1;
      ConcatInit(events, more);
      CoveredExtend(events, more[..n], ids, k);
    }
  }

  /** Covering every journal event is summing the whole journal. */
  lemma {:induction false} CoveredAll(events: seq<Event>, ids: set<EventId>, k: Key)
    requires forall i :: 0 <= i < |events| && events[i].payload.JournalPosted? ==> events[i].id in ids
    ensures Covered(events, ids, k) == Net(Postings(JournalsOf(events)), k)
  {
    if events != [] {
      var n := |events| - 1;
      CoveredAll(events[..n], ids, k);
      var js := JournalsOf(events[..n]);
      if events[n].payload.JournalPosted? {
        var e := events[n].payload.entry;
        SnocInit(js, e);
        NetConcat(Postings(js), e.postings, k);
      } else {
        assert JournalsOf(events) == js;
      }
    }
  }

  /** Delivering any event of the log, to any consumer, any number of times. */
  lemma DeliveryKeepsSound(events: seq<Event>, t: Tables, c: ConsumerName, i: nat)
    requires ProjectionSound(events, t) && DistinctIds(events) && i < |events|
    ensures ProjectionSound(events, Project(t, c, events[i]).1)
  {
    var e := events[i];
    ProjectEffect(t, c, e);
    var (r, t') := Project(t, c, e);
    forall d ensures ConsumerSound(events, t', d) {
      assert ConsumerSound(events, t, d);
      if d == c && r == Ok(Applied) {
        AddAllExact(View(t, c), e.payload.entry.postings);
        forall k ensures Get(View(t', c), k) == Covered(events, Processed(t', c), k) {
          CoveredAdd(events, Processed(t, c), i, k);
        }
      }
    }
  }

  lemma ResetKeepsSound(events: seq<Event>, t: Tables, c: ConsumerName)
    requires ProjectionSound(events, t)
    ensures ProjectionSound(events, ResetConsumer(t, c))
  {
    ResetEffect(t, c);
    forall d ensures ConsumerSound(events, ResetConsumer(t, c), d) {
      assert ConsumerSound(events, t, d);
      if d == c {
        forall k ensures Get(View(ResetConsumer(t, c), c), k) == Covered(events, {}, k) { CoveredNothing(events, k); }
      }
    }
  }

  lemma GrowthKeepsSound(events: seq<Event>, more: seq<Event>, t: Tables)
    requires ProjectionSound(events, t) && DistinctIds(events + more)
    ensures ProjectionSound(events + more, t)
  {
    forall c ensures ConsumerSound(events + more, t, c) {
      assert ConsumerSound(events, t, c);
      var ids := Processed(t, c);
      forall i | 0 <= i < |more| ensures more[i].id !in ids {
        forall j | 0 <= j < |events| ensures events[j].id != more[i].id {
          assert (events + more)[j].id != (events + more)[|events| + i].id;
        }
        assert !IsJournal(events, more[i].id);
      }
      forall id | id in ids ensures IsJournal(events + more, id) {
        var j :| 0 <= j < |events| && events[j].id == id && events[j].payload.JournalPosted?;
        assert (events + more)[j] == events[j];
      }
      forall k ensures Get(View(t, c), k) == Covered(events + more, ids, k) { CoveredExtend(events, more, ids, k); }
    }
  }

  /** Reconciling the read model against the ledger finds nothing. */
  ghost predicate Mirrors(db: Db, t: Tables, c: ConsumerName) {
    forall k :: !Differs(db.balances, View(t, c), k)
  }

  /** Once a consumer has processed every journal event, its read model is the ledger. */
  lemma CompleteConsumerAgrees(db: Db, t: Tables, c: ConsumerName)
    requires RefinesHistory(db.entries, db.balances) && JournalsOf(EventsOf(db.outbox)) == db.entries
    requires ConsumerSound(EventsOf(db.outbox), t, c) && AllProcessed(t, c, EventsOf(db.outbox))
    ensures Mirrors(db, t, c)
  {
    AddAllExact(map[], Postings(db.entries));
    forall k ensures !Differs(db.balances, View(t, c), k) {
      CoveredAll(EventsOf(db.outbox), Processed(t, c), k);
    }
  }

  /** A consumer that starts from nothing and is fed a log in order accumulates exactly the
      log's journal: if that never overflows, neither does the feed. */
  lemma {:induction false} FreshFeed(t: Tables, c: ConsumerName, es: seq<Event>)
    requires View(t, c) == map[] && Processed(t, c) == {} && DistinctIds(es)
    requires AddAll(map[], Postings(JournalsOf(es))).Ok?
    ensures var f := Feed(t, c, es);
            && f.error.None? && f.duplicates == 0
            && AddAll(map[], Postings(JournalsOf(es))) == Ok(View(f.tables, c))
            && forall id :: id in Processed(f.tables, c) ==> IsJournal(es, id)
  {
    if es != [] {
      var n := |es| - 1;
      var js, last := JournalsOf(es[..n]), es[n];
      if last.payload.JournalPosted? {
        SnocInit(js, last.payload.entry);
        AddAllConcat(map[], Postings(js), last.payload.entry.postings);
      } else {
        assert JournalsOf(es) == js;
      }
      FreshFeed(t, c, es[..n]);
      var f := Feed(t, c, es[..n]);
      ProjectEffect(f.tables, c, last);
      assert !IsJournal(es[..n], last.id);
      forall id | IsJournal(es[..n], id) ensures IsJournal(es, id) {
        var i :| 0 <= i < n && es[..n][i].id == id && es[..n][i].payload.JournalPosted?;
        assert es[i].id == id;
      }
    }
  }
}
