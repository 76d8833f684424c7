/** The dead-letter table seen by the operator: its depth, and what replaying a selection does. */
module DeadLetters {
  import opened Wrappers
  import opened Status
  import opened Identifiers
  import opened Model
  import opened Ledger
  import opened LedgerInvariants
  import opened Store

  // --- Depth ---

  function DeadLetteredOf(db: Db, source: Source): set<EventId> {
    set id | id in db.events && db.events[id].status == DeadLettered && db.events[id].facts.source == source
  }

  /** The events with an open record of the given source. */
  function OpenEvents(dead: seq<DeadLetter>, source: Source): set<EventId> {
    set row | row in dead && row.Open() && row.source == source :: row.eventId
  }

  predicate OpenOnce(dead: seq<DeadLetter>) {
    forall i, j :: 0 <= i < j < |dead| && dead[i].Open() && dead[j].Open() ==> dead[i].eventId != dead[j].eventId
  }

  lemma {:induction false} DepthCountsOpenEvents(dead: seq<DeadLetter>, source: Source)
    requires OpenOnce(dead)
    ensures OpenDepth(dead, source) == |OpenEvents(dead, source)|
  {
    if dead != [] {
      var last := |dead| - 1;
      DepthCountsOpenEvents(dead[..last], source);
      OpenEventsGrow(dead, source);
    }
  }

  lemma OpenEventsGrow(dead: seq<DeadLetter>, source: Source)
    requires OpenOnce(dead) && dead != []
    ensures var last := dead[|dead| - 1];
            var before := OpenEvents(dead[..|dead| - 1], source);
            if last.Open() && last.source == source
            then OpenEvents(dead, source) == before + {last.eventId} && last.eventId !in before
            else OpenEvents(dead, source) == before
  {
    var n := |dead| - 1;
    assert forall row :: row in dead <==> row in dead[..n] || row == dead[n] by {
      assert dead == dead[..n] + [dead[n]];
    }
  }

  lemma OpenEventsAreDeadLettered(db: Db, source: Source)
    requires OpenIffDeadLettered(db) && RecordsMatchLogs(db)
    ensures DeadLetteredOf(db, source) == OpenEvents(db.dead, source)
  {
    forall id | id in DeadLetteredOf(db, source) ensures id in OpenEvents(db.dead, source) {
      assert db.Has(id, DeadLettered);
      var i: nat :| IsOpenFor(db, i, id);
      assert db.dead[i] in db.dead;
    }
    forall id | id in OpenEvents(db.dead, source) ensures id in DeadLetteredOf(db, source) {
      var i :| 0 <= i < |db.dead| && db.dead[i].Open() && db.dead[i].source == source && db.dead[i].eventId == id;
      assert db.Has(db.dead[i].eventId, DeadLettered);
    }
  }

  lemma OpenRecordsAreDistinct(db: Db)
    requires OpenIffDeadLettered(db)
    ensures OpenOnce(db.dead)
  {
  }

  /** The depth gauge of a source counts its DEAD_LETTERED events. */
  lemma DepthIsDeadLetteredCount(db: Db, source: Source)
    requires IsSoundDb(db)
    ensures OpenDepth(db.dead, source) == |DeadLetteredOf(db, source)|
  {
    OpenRecordsAreDistinct(db);
    DepthCountsOpenEvents(db.dead, source);
    OpenEventsAreDeadLettered(db, source);
  }

  // --- Replay of a selection ---

  function ReplayOps(records: seq<nat>, now: nat): (ops: seq<Op>)
    ensures |ops| == |records| && forall i :: 0 <= i < |ops| ==> ops[i] == Replay(records[i], now)
  {
    seq(|records|, i requires 0 <= i < |records| => Replay(records[i], now))
  }

  /** The message a replay publishes: no identifiers, because the digests are on the row. */
  function ReplayMessage(db: Db, record: nat, now: nat): Message
    requires record < |db.dead|
  {
    Message(db.dead[record].eventId, NO_IDENTIFIERS, now)
  }

  /** The messages published while the records are replayed one after the other. */
  function ReplayMessages(db: Db, records: seq<nat>, now: nat): seq<Message>
    decreases |records|
  {
    if records == [] || records[0] >= |db.dead| then []
    else
      var next := Step(db, Replay(records[0], now));
      (if CanReplay(db, records[0]) then [ReplayMessage(db, records[0], now)] else [])
      + if next.Some? then ReplayMessages(next.value, records[1..], now) else []
  }

  predicate AreDistinct(records: seq<nat>) {
    forall i, j :: 0 <= i < j < |records| ==> records[i] != records[j]
  }

  predicate AreOpen(db: Db, records: seq<nat>) {
    forall i :: 0 <= i < |records| ==> records[i] < |db.dead| && db.dead[records[i]].Open()
  }

  /** An open record can be replayed when open records and DEAD_LETTERED events agree. */
  lemma OpenCanReplay(db: Db, record: nat)
    requires OpenIffDeadLettered(db) && record < |db.dead| && db.dead[record].Open()
    ensures CanReplay(db, record)
    ensures Requeued(db.events[db.dead[record].eventId], record, 0).Some?
  {
  }

  /** The tables after a replay: the record closed, every other record as it was, and still in agreement. */
  lemma OneReplay(db: Db, record: nat, now: nat)
    requires OpenIffDeadLettered(db) && record < |db.dead| && db.dead[record].Open()
    ensures CanReplay(db, record) && Step(db, Replay(record, now)).Some?
    ensures var next := Step(db, Replay(record, now)).value;
            && OpenIffDeadLettered(next) && |next.dead| == |db.dead| && !next.dead[record].Open()
            && forall r :: 0 <= r < |db.dead| && r != record ==> next.dead[r] == db.dead[r]
  {
    OpenCanReplay(db, record);
    var e := Requeued(db.events[db.dead[record].eventId], record, now).value;
    ReplayCloses(db, record, e, now);
    assert Step(db, Replay(record, now)) == Some(WithReplay(db, record, e, now));
  }

  /** Replaying distinct open records replays each of them, once, and touches no other record. */
  lemma {:induction false} ReplayAllOpen(db: Db, records: seq<nat>, now: nat)
    requires OpenIffDeadLettered(db) && AreDistinct(records) && AreOpen(db, records)
    ensures Run(db, ReplayOps(records, now)).Some?
    ensures AreReplayed(db, records, Run(db, ReplayOps(records, now)).value)
    ensures |ReplayMessages(db, records, now)| == |records|
    decreases |records|
  {
    hide OpenIffDeadLettered;
    if records != [] {
      var ops := ReplayOps(records, now);
      assert ops[1..] == ReplayOps(records[1..], now);
      assert records[0] < |db.dead| && db.dead[records[0]].Open();
      OneReplay(db, records[0], now);
      var next := Step(db, ops[0]).value;
      assert forall i :: 0 <= i < |records[1..]| ==> records[1..][i] == records[i + 1] != records[0];
      ReplayAllOpen(next, records[1..], now);
      ReplayedMore(db, next, Run(next, ops[1..]).value, records);
    }
  }

  /** The listed records are closed, and no other record changed. */
  predicate AreReplayed(db: Db, records: seq<nat>, after: Db) {
    && |after.dead| == |db.dead|
    && (forall i :: 0 <= i < |records| && records[i] < |db.dead| ==> !after.dead[records[i]].Open())
    && (forall r :: 0 <= r < |db.dead| && r !in records ==> after.dead[r] == db.dead[r])
  }

  lemma ReplayedMore(db: Db, next: Db, after: Db, records: seq<nat>)
    requires records != [] && AreDistinct(records) && AreReplayed(next, records[1..], after)
    requires |next.dead| == |db.dead| && records[0] < |db.dead| && !next.dead[records[0]].Open()
    requires forall r :: 0 <= r < |db.dead| && r != records[0] ==> next.dead[r] == db.dead[r]
    ensures AreReplayed(db, records, after)
  {
    assert records[0] !in records[1..];
    forall i | 0 <= i < |records| && records[i] < |db.dead| ensures !after.dead[records[i]].Open() {
      if i > 0 {
        assert records[i] == records[1..][i - 1];
      }
    }
    forall r | 0 <= r < |db.dead| && r !in records ensures after.dead[r] == db.dead[r] {
      assert r !in records[1..] && r != records[0];
    }
  }

  /** The largest selection one replay command takes. */
  const REPLAY_LIMIT: nat := 1000

  /**
   * Replaying by filter takes every selected record that fits the limit, once. When all of them fit,
   * the same filter selects nothing afterwards, so a second run at once replays nothing.
   */
  lemma ReplayByFilterIsComplete(db: Db, filter: DlqFilter, records: seq<nat>, now: nat)
    requires IsSoundDb(db) && !filter.includeReplayed
    requires IsOrdered(Selected(db.dead, filter), NewestFirst(db.dead), REPLAY_LIMIT, records)
    ensures Run(db, ReplayOps(records, now)).Some?
    ensures |ReplayMessages(db, records, now)| == |records|
    ensures |Selected(db.dead, filter)| <= REPLAY_LIMIT ==>
              && (forall r :: r in records <==> r in Selected(db.dead, filter))
              && Selected(Run(db, ReplayOps(records, now)).value.dead, filter) == {}
  {
    SelectionIsOpen(db, filter, records);
    ReplayAllOpen(db, records, now);
    if |Selected(db.dead, filter)| <= REPLAY_LIMIT {
      AllFit(Selected(db.dead, filter), NewestFirst(db.dead), REPLAY_LIMIT, records);
      NothingLeft(db, filter, records, Run(db, ReplayOps(records, now)).value);
    }
  }

  lemma SelectionIsOpen(db: Db, filter: DlqFilter, records: seq<nat>)
    requires !filter.includeReplayed
    requires IsOrdered(Selected(db.dead, filter), NewestFirst(db.dead), REPLAY_LIMIT, records)
    ensures AreDistinct(records) && AreOpen(db, records)
  {
    assert forall i :: 0 <= i < |records| ==> records[i] in Selected(db.dead, filter);
  }

  lemma NothingLeft(db: Db, filter: DlqFilter, records: seq<nat>, after: Db)
    requires !filter.includeReplayed && AreReplayed(db, records, after)
    requires forall r :: r in records <==> r in Selected(db.dead, filter)
    ensures Selected(after.dead, filter) == {}
  {
    forall r: nat | r < |after.dead| ensures !filter.Selects(after.dead[r]) {
      if r in records {
        var i :| 0 <= i < |records| && records[i] == r;
      } else {
        assert after.dead[r] == db.dead[r] && r !in Selected(db.dead, filter);
      }
    }
  }

  /** A limit that is no smaller than the candidates leaves none of them out. */
  lemma AllFit<T(!new)>(candidates: set<T>, key: T -> int, limit: nat, xs: seq<T>)
    requires IsOrdered(candidates, key, limit, xs) && |candidates| <= limit
    ensures forall c :: c in xs <==> c in candidates
  {
    DistinctListSize(xs);
    var listed := set x | x in xs;
    SubsetSize(listed, candidates);
    assert IsOrdered(candidates, key, |candidates|, xs) by {
      if c :| c in candidates && c !in xs {
        SubsetSize(listed + {c}, candidates);
        assert false;
      }
    }
    OrderedIsAll(candidates, key, xs);
  }
}
