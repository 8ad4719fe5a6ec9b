// Read-only projections of one goal: a summary of its milestones, and its
// activity as pages that a cursor walks through.
module ReadProjection {
  import opened Basics
  import opened Json
  import opened CanonicalJson
  import opened GoalTypes
  import opened GoalJournal
  import opened GoalInvariants
  import opened GoalTheorems
  import opened GoalLedger

  const MAX_RECEIPTS := 100
  const U32_MAX := 0xFFFF_FFFF

  datatype PreparationCounts = PreparationCounts(planned: int, prepared: int, needsRefresh: int)

  datatype GoalSummary = GoalSummary(
    scope: GoalScope, id: string, revision: int, playbook: PlaybookIdentity, preparations: PreparationCounts)

  datatype Cursor = Cursor(scope: GoalScope, goalId: string, after: int, through: int)

  datatype Receipt = Receipt(revision: int, event: string, createdAt: int)

  datatype Page = Page(
    snapshot: int, after: int, through: int, reached: bool, receipts: seq<Receipt>, next: Option<Cursor>)

  // ------------------------------------------------------------------- pages

  predicate ValidCursor(scope: GoalScope, goalId: string, cursor: Cursor) {
    ValidScope(scope) && ValidIdentifier(goalId) && cursor.scope == scope && cursor.goalId == goalId
    && 1 <= cursor.through <= MAX_REVISION && 0 <= cursor.after < cursor.through
  }

  function Min(a: int, b: int): int {
    if a <= b then a else b
  }

  /** The revision row a receipt needs. */
  predicate Dated(st: GoalStore, revision: int) {
    revision in st.revisions && st.revisions[revision].createdAt >= 0
  }

  /** Exactly one well-formed event, written with the revision. */
  ghost predicate WellRecorded(st: GoalStore, revision: int) {
    Dated(st, revision) && OneEvent(st, revision)
  }

  function ReceiptAt(st: GoalStore, revision: int): (r: Receipt)
    ensures r.revision == revision
  {
    var events := EventsAt(st.events, revision);
    Receipt(revision, if events == [] then "" else events[0].event,
            if revision in st.revisions then st.revisions[revision].createdAt else 0)
  }

  /** The receipt repeats the only event row of its revision, which is of a known kind and as old as the revision. */
  ghost predicate Repeats(st: GoalStore, receipt: Receipt) {
    GoalEvent(receipt.event)
    && receipt.revision in st.revisions && receipt.createdAt == st.revisions[receipt.revision].createdAt >= 0
    && exists k :: OnlyAt(st.events, k, EventRow(receipt.revision, receipt.event, receipt.createdAt))
  }

  ghost predicate OnlyAt(events: seq<EventRow>, k: int, e: EventRow) {
    0 <= k < |events| && events[k] == e && forall i :: 0 <= i < |events| && i != k ==> events[i].revision != e.revision
  }

  lemma {:induction false} NoEventAt(events: seq<EventRow>, revision: int)
    requires EventsAt(events, revision) == []
    ensures forall i :: 0 <= i < |events| ==> events[i].revision != revision
  {
    if events != [] {
      NoEventAt(events[1..], revision);
      assert forall i :: 1 <= i < |events| ==> events[i] == events[1..][i - 1];
    }
  }

  lemma {:induction false} TheOnlyEvent(events: seq<EventRow>, revision: int) returns (k: int)
    requires |EventsAt(events, revision)| == 1
    ensures OnlyAt(events, k, EventsAt(events, revision)[0]) && EventsAt(events, revision)[0].revision == revision
  {
    if events[0].revision == revision {
      k := 0;
      NoEventAt(events[1..], revision);
      assert forall i :: 1 <= i < |events| ==> events[i] == events[1..][i - 1];
    } else {
      k := TheOnlyEvent(events[1..], revision);
      k := k + 1;
      assert forall i :: 1 <= i < |events| ==> events[i] == events[1..][i - 1];
    }
  }

  /** What a page needs of the tables: its own receipts, and one revision row beyond them. */
  ghost predicate PageOk(st: GoalStore, after: int, through: int) {
    (forall r :: after < r <= Min(through, after + MAX_RECEIPTS + 1) ==> Dated(st, r))
    && (forall r :: after < r <= Min(through, after + MAX_RECEIPTS) ==> WellRecorded(st, r))
  }

  lemma ReceiptIsTrue(st: GoalStore, revision: int)
    requires WellRecorded(st, revision)
    ensures Repeats(st, ReceiptAt(st, revision))
  {
    hide EventsAt;
    var k := TheOnlyEvent(st.events, revision);
    assert OnlyAt(st.events, k, EventRow(revision, ReceiptAt(st, revision).event, ReceiptAt(st, revision).createdAt));
  }

  function ReceiptsOf(st: GoalStore, after: int, upTo: int): (r: seq<Receipt>)
    requires after <= upTo
    ensures |r| == upTo - after && forall i :: 0 <= i < |r| ==> r[i] == ReceiptAt(st, after + 1 + i)
  {
    seq(upTo - after, i requires 0 <= i < upTo - after => ReceiptAt(st, after + 1 + i))
  }

  /** The page at a cursor, for any contents of the tables. */
  ghost function PageOf(goals: Goals, scope: GoalScope, goalId: string, cursor: Option<Cursor>): Result<Page> {
    var st := StoreOf(goals, GoalKey(scope, goalId));
    if !ValidScope(scope) || !ValidIdentifier(goalId) then Err(InvalidInput)
    else if st.row.None? then Err(NotFound)
    else if !ValidRevision(st.row.value.revision) then Err(Corrupt)
    else if cursor.Some? && !ValidCursor(scope, goalId, cursor.value) then Err(InvalidInput)
    else if cursor.Some? && cursor.value.through > st.row.value.revision then Err(InvalidInput)
    else
      var at := if cursor.Some? then cursor.value else Cursor(scope, goalId, 0, st.row.value.revision);
      if !PageOk(st, at.after, at.through) then Err(Corrupt)
      else
        var last := Min(at.through, at.after + MAX_RECEIPTS);
        var receipts := ReceiptsOf(st, at.after, last);
        Ok(Page(at.through, at.after, last, last == at.through, receipts,
                if last == at.through then None else Some(at.(after := last))))
  }

  /** The first `limit` revision rows in a window, in revision order. */
  function Select(revisions: Revisions, after: int, through: int, limit: nat): (r: seq<(int, int)>)
    ensures |r| <= limit
    ensures forall i :: 0 <= i < |r| ==> after < r[i].0 <= through && r[i].0 in revisions && r[i].1 == revisions[r[i].0].createdAt
    ensures forall i, j :: 0 <= i < j < |r| ==> r[i].0 < r[j].0
    decreases through - after
  {
    if after >= through || limit == 0 then []
    else if after + 1 in revisions then
      [(after + 1, revisions[after + 1].createdAt)] + Select(revisions, after + 1, through, limit - 1)
    else Select(revisions, after + 1, through, limit)
  }

  /** A window without gaps is selected whole, up to the limit. */
  lemma {:induction false} SelectDense(revisions: Revisions, after: int, through: int, limit: nat)
    requires after <= through && forall r :: after < r <= Min(through, after + limit) ==> r in revisions
    ensures var rows := Select(revisions, after, through, limit);
            |rows| == Min(through - after, limit)
            && forall i :: 0 <= i < |rows| ==> rows[i].0 == after + 1 + i
    decreases through - after
  {
    if after < through && limit > 0 {
      assert after + 1 in revisions;
      SelectDense(revisions, after + 1, through, limit - 1);
    }
  }

  /** Reads one page, re-checking every row it is about to report. */
  method GoalActivityPage(goals: Goals, scope: GoalScope, goalId: string, cursor: Option<Cursor>) returns (r: Result<Page>)
    ensures r == PageOf(goals, scope, goalId, cursor)
    ensures r.Ok? ==> forall i :: 0 <= i < |r.value.receipts| ==>
              r.value.receipts[i].revision == r.value.after + 1 + i
              && Repeats(StoreOf(goals, GoalKey(scope, goalId)), r.value.receipts[i])
  {
    hide ValidScope, ValidIdentifier, EventsAt, Repeats;
    if !ValidScope(scope) || !ValidIdentifier(goalId) {
      return Err(InvalidInput);
    }
    var st := StoreOf(goals, GoalKey(scope, goalId));
    if st.row.None? {
      return Err(NotFound);
    }
    var current := st.row.value.revision;
    if !ValidRevision(current) {
      return Err(Corrupt);
    }
    var at := Cursor(scope, goalId, 0, current);
    if cursor.Some? {
      if !ValidCursor(scope, goalId, cursor.value) || cursor.value.through > current {
        return Err(InvalidInput);
      }
      at := cursor.value;
    }
    var dated, revisions := ReadRevisions(st, at.after, at.through);
    if !dated {
      return Err(Corrupt);
    }
    var hasMore := |revisions| > MAX_RECEIPTS;
    if hasMore {
      revisions := revisions[..MAX_RECEIPTS];
    }
    var recorded, receipts := ReadReceipts(st, at.after, revisions);
    ghost var last := Min(at.through, at.after + MAX_RECEIPTS);
    assert |revisions| == last - at.after;
    if !recorded {
      return Err(Corrupt);
    }
    assert receipts == ReceiptsOf(st, at.after, last);
    var through := receipts[|receipts| - 1].revision;
    var reached := !hasMore && through == at.through;
    r := Ok(Page(at.through, at.after, through, reached, receipts,
                 if reached then None else Some(at.(after := through))));
  }

  /** The rows of a window, refused unless they are consecutive and complete up to the limit. */
  method ReadRevisions(st: GoalStore, after: int, through: int) returns (ok: bool, revisions: seq<(int, int)>)
    requires after < through
    ensures ok <==> forall r :: after < r <= Min(through, after + MAX_RECEIPTS + 1) ==> Dated(st, r)
    ensures ok ==> |revisions| == Min(through - after, MAX_RECEIPTS + 1)
    ensures ok ==> forall i :: 0 <= i < |revisions| ==>
                     revisions[i].0 == after + 1 + i && Dated(st, revisions[i].0) && revisions[i].1 == st.revisions[revisions[i].0].createdAt
  {
    hide Select;
    var rows := Select(st.revisions, after, through, MAX_RECEIPTS + 1);
    ghost var dense := forall r :: after < r <= Min(through, after + MAX_RECEIPTS + 1) ==> r in st.revisions;
    if dense {
      SelectDense(st.revisions, after, through, MAX_RECEIPTS + 1);
    }
    revisions := [];
    var expected := after + 1;
    for i := 0 to |rows|
      invariant expected == after + 1 + i && revisions == rows[..i]
      invariant forall k :: 0 <= k < i ==> rows[k].0 == after + 1 + k && rows[k].1 >= 0
    {
      var (revision, createdAt) := rows[i];
      if revision != expected || createdAt < 0 {
        ghost var r :| after < r <= Min(through, after + MAX_RECEIPTS + 1) && !Dated(st, r) by {
          if dense {
            assert revision == expected && !Dated(st, expected);
          } else {
            var r :| after < r <= Min(through, after + MAX_RECEIPTS + 1) && r !in st.revisions;
            assert !Dated(st, r);
          }
        }
        return false, revisions;
      }
      revisions := revisions + [rows[i]];
      expected := expected + 1;
    }
    assert revisions == rows;
    if |revisions| != Min(through - after, MAX_RECEIPTS + 1) {
      ghost var r :| after < r <= Min(through, after + MAX_RECEIPTS + 1) && r !in st.revisions;
      assert !Dated(st, r);
      return false, revisions;
    }
    forall r | after < r <= Min(through, after + MAX_RECEIPTS + 1)
      ensures Dated(st, r)
    {
      assert rows[r - after - 1].0 == r;
    }
    ok := true;
  }

  /** One receipt for each revision, refused unless its event is unique, known and equally dated. */
  method ReadReceipts(st: GoalStore, after: int, revisions: seq<(int, int)>) returns (ok: bool, receipts: seq<Receipt>)
    requires forall i :: 0 <= i < |revisions| ==>
               revisions[i].0 == after + 1 + i && Dated(st, revisions[i].0) && revisions[i].1 == st.revisions[revisions[i].0].createdAt
    ensures ok <==> forall r :: after < r <= after + |revisions| ==> WellRecorded(st, r)
    ensures ok ==> receipts == ReceiptsOf(st, after, after + |revisions|)
    ensures ok ==> forall i :: 0 <= i < |receipts| ==> receipts[i].revision == after + 1 + i && Repeats(st, receipts[i])
  {
    hide EventsAt, GoalEvent, Repeats;
    receipts := [];
    for i := 0 to |revisions|
      invariant |receipts| == i
      invariant forall r :: after < r <= after + i ==> WellRecorded(st, r)
      invariant receipts == ReceiptsOf(st, after, after + i)
      invariant forall k :: 0 <= k < i ==> Repeats(st, receipts[k])
    {
      var (revision, createdAt) := revisions[i];
      var values := EventsAt(st.events, revision);
      if |values| != 1 || !GoalEvent(values[0].event) || values[0].createdAt != createdAt {
        assert !WellRecorded(st, after + 1 + i);
        return false, receipts;
      }
      ReceiptIsTrue(st, revision);
      receipts := receipts + [Receipt(revision, values[0].event, createdAt)];
    }
    ok := true;
  }

  /** Pages are never empty, never too long, and their cursors are valid and closer to the snapshot. */
  lemma PagesAdvance(goals: Goals, scope: GoalScope, goalId: string, cursor: Option<Cursor>)
    requires PageOf(goals, scope, goalId, cursor).Ok?
    ensures var page := PageOf(goals, scope, goalId, cursor).value;
            && 1 <= |page.receipts| <= MAX_RECEIPTS
            && page.through == page.after + |page.receipts|
            && (page.reached <==> page.next.None?)
            && (page.reached <==> page.through == page.snapshot)
            && (page.next.Some? ==>
                  && ValidCursor(scope, goalId, page.next.value)
                  && page.next.value.through == page.snapshot
                  && page.next.value.through - page.next.value.after < page.snapshot - page.after)
  {
  }

  // -------------------------------------------------------------------- walks

  datatype Walked = Reached(receipts: seq<Receipt>) | Refused(error: Error) | Unfinished

  /** Following next cursors, where the i-th page is read from the i-th table state. */
  ghost function Walk(tables: seq<Goals>, scope: GoalScope, goalId: string, cursor: Option<Cursor>): Walked {
    if tables == [] then Unfinished
    else
      match PageOf(tables[0], scope, goalId, cursor)
      case Err(error) => Refused(error)
      case Ok(page) =>
        if page.reached then Reached(page.receipts)
        else
          match Walk(tables[1..], scope, goalId, page.next)
          case Reached(rest) => Reached(page.receipts + rest)
          case other => other
  }

  /** This receipt was read from some table state whose only event for the revision it repeats. */
  ghost predicate Witnessed(tables: seq<Goals>, key: GoalKey, receipt: Receipt) {
    exists t :: 0 <= t < |tables| && Repeats(StoreOf(tables[t], key), receipt)
  }

  function StartAfter(cursor: Option<Cursor>): int {
    if cursor.Some? then cursor.value.after else 0
  }

  ghost function Snapshot(tables: seq<Goals>, key: GoalKey, cursor: Option<Cursor>): int
    requires tables != []
  {
    if cursor.Some? then cursor.value.through else Revision(StoreOf(tables[0], key))
  }

  /**
   * Over arbitrary, even corrupt and changing, tables: a walk that reaches its
   * snapshot has listed every revision up to it once and in order, and each
   * revision had exactly one well-formed event with the revision's timestamp.
   */
  lemma {:induction false} WalkFailsClosed(tables: seq<Goals>, scope: GoalScope, goalId: string, cursor: Option<Cursor>)
    requires Walk(tables, scope, goalId, cursor).Reached?
    ensures var receipts := Walk(tables, scope, goalId, cursor).receipts;
            var after := StartAfter(cursor);
            && tables != []
            && |receipts| == Snapshot(tables, GoalKey(scope, goalId), cursor) - after
            && forall i :: 0 <= i < |receipts| ==>
                 receipts[i].revision == after + 1 + i && Witnessed(tables, GoalKey(scope, goalId), receipts[i])
  {
    hide OneEvent, ValidScope, ValidIdentifier, EventsAt, Repeats;
    var key := GoalKey(scope, goalId);
    var page := PageOf(tables[0], scope, goalId, cursor).value;
    var receipts := Walk(tables, scope, goalId, cursor).receipts;
    forall i | 0 <= i < |page.receipts|
      ensures page.receipts[i].revision == page.after + 1 + i && Witnessed(tables, key, page.receipts[i])
    {
      var st := StoreOf(tables[0], key);
      assert page.receipts == ReceiptsOf(st, page.after, page.through);
      assert WellRecorded(st, page.after + 1 + i);
      assert page.receipts[i] == ReceiptAt(st, page.after + 1 + i);
      ReceiptIsTrue(st, page.after + 1 + i);
    }
    if !page.reached {
      WalkFailsClosed(tables[1..], scope, goalId, page.next);
      forall i | |page.receipts| <= i < |receipts|
        ensures receipts[i].revision == page.after + 1 + i && Witnessed(tables, key, receipts[i])
      {
        var t :| 0 <= t < |tables[1..]| && Repeats(StoreOf(tables[1..][t], key), receipts[i]);
        assert tables[1..][t] == tables[t + 1];
      }
    }
  }

  /** The table states a walker sees while other transactions commit between its pages. */
  function States(goals: Goals, between: seq<seq<Timed>>): (r: seq<Goals>)
    ensures |r| == |between| + 1 && r[0] == goals
    decreases |between|
  {
    if between == [] then [goals] else [goals] + States(Run(goals, between[0]), between[1..])
  }

  /** The first `upTo` revisions of a goal, and their events, are there and are never touched again. */
  ghost predicate Preserves(a: GoalStore, b: GoalStore, upTo: int) {
    forall r :: 1 <= r <= upTo ==>
      r in a.revisions && r in b.revisions && a.revisions[r] == b.revisions[r] && EventsAt(a.events, r) == EventsAt(b.events, r)
  }

  /** A transaction leaves a goal's history alone or adds one revision and its event at the end. */
  ghost predicate AddsOne(a: GoalStore, b: GoalStore) {
    || (b.revisions == a.revisions && b.events == a.events)
    || (|b.events| == |a.events| + 1 && b.events == a.events + [b.events[|a.events|]]
        && var r := b.events[|a.events|].revision;
           && r in b.revisions && b.revisions == a.revisions[r := b.revisions[r]]
           && (a.row.Some? ==> r == a.row.value.body.revision + 1))
  }

  lemma ApplyAddsOne(goals: Goals, op: GoalOp, now: int, key: GoalKey)
    ensures AddsOne(StoreOf(goals, key), StoreOf(Apply(goals, op, now).0, key))
  {
    hide ValidGoal, ValidMilestone, ValidPatch, Touched, StaleBodies, StaleRows, ValidMutation, ValidScope,
         ValidIdentifier;
  }

  lemma ApplyPreserves(goals: Goals, op: GoalOp, now: int, key: GoalKey)
    requires GoalsOk(goals)
    ensures Preserves(StoreOf(goals, key), StoreOf(Apply(goals, op, now).0, key), Revision(StoreOf(goals, key)))
  {
    hide GoalsOk, Apply, EventsAt, WellRecorded;
    var a, b := StoreOf(goals, key), StoreOf(Apply(goals, op, now).0, key);
    ApplyAddsOne(goals, op, now, key);
    RowMatchesRevision(goals, key);
    RevisionsPresent(goals, key);
    if b.events != a.events {
      forall r | 1 <= r <= Revision(a)
        ensures EventsAt(a.events, r) == EventsAt(b.events, r)
      {
        EventsAtAppend(a.events, b.events[|a.events|], r);
      }
    }
  }

  lemma {:induction false} RunPreserves(goals: Goals, ops: seq<Timed>, key: GoalKey, upTo: int)
    requires GoalsOk(goals) && upTo <= Revision(StoreOf(goals, key))
    ensures Preserves(StoreOf(goals, key), StoreOf(Run(goals, ops), key), upTo)
    ensures GoalsOk(Run(goals, ops)) && upTo <= Revision(StoreOf(Run(goals, ops), key))
    decreases |ops|
  {
    hide GoalsOk, Apply;
    if ops == [] {
      RevisionsPresent(goals, key);
    } else {
      var next := Apply(goals, ops[0].op, ops[0].now).0;
      ApplyPreserves(goals, ops[0].op, ops[0].now, key);
      ApplyKeepsGoals(goals, ops[0].op, ops[0].now);
      ApplyNeverFalls(goals, ops[0].op, ops[0].now, key);
      RunPreserves(next, ops[1..], key, upTo);
    }
  }

  lemma RevisionsPresent(goals: Goals, key: GoalKey)
    requires GoalsOk(goals)
    ensures forall r :: 1 <= r <= Revision(StoreOf(goals, key)) ==>
              r in StoreOf(goals, key).revisions && WellRecorded(StoreOf(goals, key), r)
  {
    hide MilestonesOk, Fresh, ReplayOk, EventsAt, ValidGoal;
    assert StoreOk(key, StoreOf(goals, key));
  }

  lemma PreservesReceipts(a: GoalStore, b: GoalStore, after: int, upTo: int)
    requires Preserves(a, b, upTo) && 0 <= after <= upTo
    requires forall r :: 1 <= r <= upTo ==> WellRecorded(a, r)
    ensures forall r :: 1 <= r <= upTo ==> WellRecorded(b, r)
    ensures ReceiptsOf(a, after, upTo) == ReceiptsOf(b, after, upTo)
  {
    hide EventsAt, GoalEvent;
    forall r | 1 <= r <= upTo
      ensures WellRecorded(b, r)
    {
      assert WellRecorded(a, r);
    }
  }

  /** A page of a reachable goal whose history covers the cursor's window. */
  lemma PageOfReachable(goals: Goals, scope: GoalScope, goalId: string, cursor: Cursor)
    requires GoalsOk(goals) && ValidCursor(scope, goalId, cursor)
    requires cursor.through <= Revision(StoreOf(goals, GoalKey(scope, goalId))) <= MAX_REVISION
    ensures var st := StoreOf(goals, GoalKey(scope, goalId));
            var last := Min(cursor.through, cursor.after + MAX_RECEIPTS);
            && (forall r :: 1 <= r <= cursor.through ==> WellRecorded(st, r))
            && PageOf(goals, scope, goalId, Some(cursor))
               == Ok(Page(cursor.through, cursor.after, last, last == cursor.through, ReceiptsOf(st, cursor.after, last),
                          if last == cursor.through then None else Some(cursor.(after := last))))
  {
    hide GoalsOk, OneEvent, ValidScope, ValidIdentifier;
    RevisionsPresent(goals, GoalKey(scope, goalId));
    RowMatchesRevision(goals, GoalKey(scope, goalId));
    var st := StoreOf(goals, GoalKey(scope, goalId));
    forall r | 1 <= r <= cursor.through
      ensures WellRecorded(st, r) && Dated(st, r)
    {
    }
    assert PageOk(st, cursor.after, cursor.through);
  }

  lemma RowMatchesRevision(goals: Goals, key: GoalKey)
    requires GoalsOk(goals)
    ensures var st := StoreOf(goals, key);
            st.row.Some? ==> Revision(st) == st.row.value.revision && ValidRevision(Revision(st))
                             && ValidGoal(st.row.value.body) && st.row.value.body.scope == key.scope
                             && st.row.value.body.id == key.id && st.row.value.body.revision == Revision(st)
  {
    hide MilestonesOk, Fresh, ReplayOk, ValidParameters;
    var st := StoreOf(goals, key);
    assert StoreOk(key, st);
    if st.row.Some? {
      assert RevisionOk(key, st.revisions[Revision(st)], Revision(st));
    }
  }

  lemma {:induction false} WalkFromCursor(goals: Goals, between: seq<seq<Timed>>, scope: GoalScope, goalId: string, cursor: Cursor)
    requires GoalsOk(goals) && ValidCursor(scope, goalId, cursor)
    requires cursor.through <= Revision(StoreOf(goals, GoalKey(scope, goalId)))
    requires cursor.through - cursor.after <= (|between| + 1) * MAX_RECEIPTS
    ensures (forall r :: 1 <= r <= cursor.through ==> WellRecorded(StoreOf(goals, GoalKey(scope, goalId)), r))
            && Walk(States(goals, between), scope, goalId, Some(cursor))
               == Reached(ReceiptsOf(StoreOf(goals, GoalKey(scope, goalId)), cursor.after, cursor.through))
    decreases |between|
  {
    hide GoalsOk, WellRecorded, Preserves, ValidScope, ValidIdentifier, PageOf, ReceiptsOf, Run, Apply, ReceiptAt;
    var key := GoalKey(scope, goalId);
    var st := StoreOf(goals, key);
    RowMatchesRevision(goals, key);
    PageOfReachable(goals, scope, goalId, cursor);
    var last := Min(cursor.through, cursor.after + MAX_RECEIPTS);
    if last < cursor.through {
      var next := Run(goals, between[0]);
      RunPreserves(goals, between[0], key, cursor.through);
      PreservesReceipts(st, StoreOf(next, key), last, cursor.through);
      WalkFromCursor(next, between[1..], scope, goalId, cursor.(after := last));
      assert States(goals, between)[1..] == States(next, between[1..]);
      assert ReceiptsOf(st, cursor.after, cursor.through)
          == ReceiptsOf(st, cursor.after, last) + ReceiptsOf(st, last, cursor.through);
    }
  }

  /**
   * The walk is exact: from no cursor, with any transactions committed between
   * pages, it lists each revision 1..snapshot of the starting state exactly once
   * and in order, in at most snapshot/100 + 1 pages.
   */
  lemma WalkIsExact(ops: seq<Timed>, between: seq<seq<Timed>>, scope: GoalScope, goalId: string)
    requires ValidScope(scope) && ValidIdentifier(goalId)
    requires var st := StoreOf(Run(NO_GOALS, ops), GoalKey(scope, goalId));
             st.row.Some? && Revision(st) <= (|between| + 1) * MAX_RECEIPTS
    ensures var goals := Run(NO_GOALS, ops);
            var st := StoreOf(goals, GoalKey(scope, goalId));
            && Revision(st) >= 1
            && (forall r :: 1 <= r <= Revision(st) ==> WellRecorded(st, r))
            && Walk(States(goals, between), scope, goalId, None) == Reached(ReceiptsOf(st, 0, Revision(st)))
  {
    hide GoalsOk, WellRecorded, ValidScope, ValidIdentifier, PageOf, Run, States, Walk;
    EmptyGoalsOk();
    RunKeepsGoals(NO_GOALS, ops);
    var goals := Run(NO_GOALS, ops);
    var key := GoalKey(scope, goalId);
    RowMatchesRevision(goals, key);
    var cursor := Cursor(scope, goalId, 0, Revision(StoreOf(goals, key)));
    WalkFromCursor(goals, between, scope, goalId, cursor);
    NoCursorIsFirst(States(goals, between), scope, goalId, cursor);
  }

  /**
   * What the walk reports is what happened: the receipt of revision r names the kind and
   * the time of the request that took the goal to revision r.
   */
  lemma WalkNamesRequests(ops: seq<Timed>, between: seq<seq<Timed>>, scope: GoalScope, goalId: string, r: int) returns (j: nat)
    requires ValidScope(scope) && ValidIdentifier(goalId)
    requires var st := StoreOf(Run(NO_GOALS, ops), GoalKey(scope, goalId));
             1 <= r <= Revision(st) <= (|between| + 1) * MAX_RECEIPTS
    ensures var walk := Walk(States(Run(NO_GOALS, ops), between), scope, goalId, None);
            && walk.Reached? && r <= |walk.receipts|
            && j < |ops| && TookTo(ops, j, GoalKey(scope, goalId), r)
            && walk.receipts[r - 1].revision == r && walk.receipts[r - 1].createdAt == ops[j].now
            && walk.receipts[r - 1].event == match ops[j].op
                                             case Create(_, _) => "created"
                                             case Revise(_, _, _, _, _) => "revised"
                                             case Record(_, _, _, _, _) => "milestone_recorded"
  {
    hide ValidScope, ValidIdentifier, PageOf, Run, States, Walk, TookTo, WellRecorded;
    WalkIsExact(ops, between, scope, goalId);
    j := RevisionsNameTheirRequest(ops, GoalKey(scope, goalId), r);
  }

  lemma {:induction false} NoCursorIsFirst(tables: seq<Goals>, scope: GoalScope, goalId: string, cursor: Cursor)
    requires ValidCursor(scope, goalId, cursor) && cursor.after == 0 && tables != []
    requires var row := StoreOf(tables[0], GoalKey(scope, goalId)).row;
             row.Some? && row.value.revision == cursor.through
    ensures Walk(tables, scope, goalId, None) == Walk(tables, scope, goalId, Some(cursor))
  {
    hide PageOk, ValidScope, ValidIdentifier;
    assert PageOf(tables[0], scope, goalId, None) == PageOf(tables[0], scope, goalId, Some(cursor));
  }

  // ------------------------------------------------------------------ summary

  predicate SummarizableMilestone(goal: Goal, id: string, milestone: Milestone) {
    ValidMilestone(milestone) && milestone.id == id
    && (!milestone.requiresRefresh ==> milestone.dependencies <= Keys(goal.parameters))
  }

  function InState(milestones: Milestones, preparation: string): set<string> {
    set id | id in milestones && milestones[id].preparation == preparation
  }

  /** None of the summary's corruption checks fires. */
  predicate Summarizable(st: GoalStore, scope: GoalScope, goalId: string) {
    st.row.Some? && ValidGoal(st.row.value.body)
    && st.row.value.body.scope == scope && st.row.value.body.id == goalId
    && st.row.value.body.revision == st.row.value.revision
    && Countable(st.row.value.body, st.milestones)
  }

  function Count(milestones: Milestones): PreparationCounts {
    PreparationCounts(|InState(milestones, "planned")|, |InState(milestones, "prepared")|, |InState(milestones, "needs_refresh")|)
  }

  /** Counts the milestones one by one, re-checking each; any doubt is an error. */
  method Summarize(goals: Goals, scope: GoalScope, goalId: string) returns (r: Result<GoalSummary>)
    ensures !ValidScope(scope) || !ValidIdentifier(goalId) ==> r == Err(InvalidInput)
    ensures ValidScope(scope) && ValidIdentifier(goalId) ==>
              var st := StoreOf(goals, GoalKey(scope, goalId));
              if st.row.None? then r == Err(NotFound)
              else if !Summarizable(st, scope, goalId) then r == Err(Corrupt)
              else
                var goal := st.row.value.body;
                r == Ok(GoalSummary(goal.scope, goal.id, goal.revision, goal.playbook, Count(st.milestones)))
  {
    hide ValidScope, ValidIdentifier, ValidGoal;
    if !ValidScope(scope) || !ValidIdentifier(goalId) {
      return Err(InvalidInput);
    }
    var st := StoreOf(goals, GoalKey(scope, goalId));
    if st.row.None? {
      return Err(NotFound);
    }
    var goal := st.row.value.body;
    if !ValidGoal(goal) || goal.scope != scope || goal.id != goalId || goal.revision != st.row.value.revision {
      return Err(Corrupt);
    }
    var counts := CountMilestones(goal, st.milestones);
    if counts.None? {
      return Err(Corrupt);
    }
    return Ok(GoalSummary(goal.scope, goal.id, goal.revision, goal.playbook, counts.value));
  }

  /** At most 128 rows, each well formed, under its own id, and consistent with the goal's parameters. */
  predicate Countable(goal: Goal, milestones: Milestones) {
    |milestones| <= MAX_MILESTONES && forall id :: id in milestones ==> SummarizableMilestone(goal, id, milestones[id])
  }

  method CountMilestones(goal: Goal, milestones: Milestones) returns (r: Option<PreparationCounts>)
    ensures r.Some? <==> Countable(goal, milestones)
    ensures r.Some? ==> r.value == Count(milestones)
    ensures r.Some? ==>
              && r.value.planned == |set id | id in milestones && milestones[id].preparation == "planned"|
              && r.value.prepared == |set id | id in milestones && milestones[id].preparation == "prepared"|
              && r.value.needsRefresh == |set id | id in milestones && milestones[id].preparation == "needs_refresh"|
  {
    hide Count, SummarizableMilestone;
    var rest := milestones.Keys;
    var seen := 0;
    var counts := PreparationCounts(0, 0, 0);
    ghost var done: Milestones := map[];
    assert |milestones| == |milestones.Keys|;
    NothingCounted();
    while rest != {}
      invariant rest <= milestones.Keys && seen + |rest| == |milestones| && 0 <= seen <= MAX_MILESTONES
      invariant done == map id | id in milestones && id !in rest :: milestones[id]
      invariant counts == Count(done) && counts.planned + counts.prepared + counts.needsRefresh == seen
      invariant counts.planned >= 0 && counts.prepared >= 0 && counts.needsRefresh >= 0
      invariant forall id :: id in done ==> SummarizableMilestone(goal, id, milestones[id])
    {
      var id :| id in rest;
      seen := seen + 1;
      if seen > MAX_MILESTONES {
        return None;
      }
      var milestone := milestones[id];
      if !SummarizableMilestone(goal, id, milestone) {
        return None;
      }
      CheckedIsValid(goal, id, milestone);
      CountStep(done, id, milestone);
      assert seen <= U32_MAX;
      if milestone.preparation == "planned" {
        counts := counts.(planned := counts.planned + 1);
      } else if milestone.preparation == "prepared" {
        counts := counts.(prepared := counts.prepared + 1);
      } else if milestone.preparation == "needs_refresh" {
        counts := counts.(needsRefresh := counts.needsRefresh + 1);
      } else {
        assert false;
      }
      rest, done := rest - {id}, done[id := milestone];
    }
    assert done == milestones;
    CountsAreSizes(milestones);
    return Some(counts);
  }

  lemma CountsAreSizes(milestones: Milestones)
    ensures var counts := Count(milestones);
            && counts.planned == |set id | id in milestones && milestones[id].preparation == "planned"|
            && counts.prepared == |set id | id in milestones && milestones[id].preparation == "prepared"|
            && counts.needsRefresh == |set id | id in milestones && milestones[id].preparation == "needs_refresh"|
  {
  }

  lemma NothingCounted()
    ensures Count(map[]) == PreparationCounts(0, 0, 0)
  {
    assert InState(map[], "planned") == InState(map[], "prepared") == InState(map[], "needs_refresh") == {};
  }

  lemma CheckedIsValid(goal: Goal, id: string, milestone: Milestone)
    requires SummarizableMilestone(goal, id, milestone)
    ensures ValidMilestone(milestone)
  {
  }

  /** One more valid milestone is one more in exactly one of the three counts. */
  lemma CountStep(done: Milestones, id: string, milestone: Milestone)
    requires id !in done && ValidMilestone(milestone)
    ensures var before, after := Count(done), Count(done[id := milestone]);
            || (milestone.preparation == "planned" && after == before.(planned := before.planned + 1))
            || (milestone.preparation == "prepared" && after == before.(prepared := before.prepared + 1))
            || (milestone.preparation == "needs_refresh" && after == before.(needsRefresh := before.needsRefresh + 1))
  {
    hide InState;
    CountOne(done, id, milestone);
  }

  lemma CountOne(done: Milestones, id: string, milestone: Milestone)
    requires id !in done
    ensures forall preparation ::
              |InState(done[id := milestone], preparation)|
              == |InState(done, preparation)| + if milestone.preparation == preparation then 1 else 0
  {
    forall preparation
      ensures |InState(done[id := milestone], preparation)|
              == |InState(done, preparation)| + if milestone.preparation == preparation then 1 else 0
    {
      assert InState(done[id := milestone], preparation)
          == InState(done, preparation) + if milestone.preparation == preparation then {id} else {};
    }
  }

  /** A fresh milestone's dependencies are still parameters of the current goal. */
  lemma FreshDependenciesExist(key: GoalKey, st: GoalStore, id: string)
    requires StoreOk(key, st) && st.row.Some? && id in st.milestones && !st.milestones[id].requiresRefresh
    ensures st.milestones[id].dependencies <= Keys(st.row.value.body.parameters)
  {
    hide ValidGoal, ValidMilestone, OneEvent;
    assert MatchesHistory(st.milestones, st.history, id);
    var r :| Latest(st.history, id, r) && st.history[(id, r)].body == st.milestones[id];
    assert UnchangedSince(st.revisions, st.milestones[id].dependencies, r);
    var was, now := st.revisions[r].body, st.row.value.body;
    assert SameInputs(was, now, st.milestones[id].dependencies);
    LookupOfKey(was.parameters);
    LookupOfKey(now.parameters);
    forall d | d in st.milestones[id].dependencies
      ensures d in Keys(now.parameters)
    {
      assert SameParameter(was, now, d);
    }
  }

  lemma {:induction false} ThreeStates(milestones: Milestones)
    requires forall id :: id in milestones ==> ValidMilestone(milestones[id])
    ensures var counts := Count(milestones); counts.planned + counts.prepared + counts.needsRefresh == |milestones|
    decreases |milestones|
  {
    hide Count, ValidMilestone;
    if milestones == map[] {
      NothingCounted();
    } else {
      var id :| id in milestones;
      var rest := milestones - {id};
      assert milestones == rest[id := milestones[id]];
      assert milestones.Keys == rest.Keys + {id};
      assert |milestones| == |milestones.Keys| && |rest| == |rest.Keys|;
      ThreeStates(rest);
      CountStep(rest, id, milestones[id]);
    }
  }

  /** The summary accepts every goal of every reachable journal, and its counts add up. */
  lemma SummaryAcceptsReachable(ops: seq<Timed>, scope: GoalScope, goalId: string)
    requires StoreOf(Run(NO_GOALS, ops), GoalKey(scope, goalId)).row.Some?
    ensures var st := StoreOf(Run(NO_GOALS, ops), GoalKey(scope, goalId));
            var counts := Count(st.milestones);
            && Summarizable(st, scope, goalId)
            && counts.planned + counts.prepared + counts.needsRefresh == |st.milestones| <= MAX_MILESTONES
  {
    hide ValidGoal, ValidMilestone, Fresh, Linear, AllMatch, Bounded, ReplayOk;
    EmptyGoalsOk();
    RunKeepsGoals(NO_GOALS, ops);
    var goals := Run(NO_GOALS, ops);
    var key := GoalKey(scope, goalId);
    var st := StoreOf(goals, key);
    assert StoreOk(key, st);
    RowMatchesRevision(goals, key);
    ThreeStates(st.milestones);
    forall id | id in st.milestones
      ensures SummarizableMilestone(st.row.value.body, id, st.milestones[id])
    {
      if !st.milestones[id].requiresRefresh {
        FreshDependenciesExist(key, st, id);
      }
    }
  }
}
