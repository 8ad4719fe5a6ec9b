// What every history of goal transactions keeps: linear revisions, milestone
// rows that agree with their history, and the soundness of milestone freshness.
module GoalInvariants {
  import opened Json
  import opened CanonicalJson
  import opened GoalTypes
  import opened GoalJournal

  predicate GoalEvent(event: string) {
    event == "created" || event == "revised" || event == "milestone_recorded"
  }

  function EventsAt(events: seq<EventRow>, revision: int): seq<EventRow> {
    if events == [] then []
    else if events[0].revision == revision then [events[0]] + EventsAt(events[1..], revision)
    else EventsAt(events[1..], revision)
  }

  lemma {:induction false} EventsAtAppend(events: seq<EventRow>, e: EventRow, revision: int)
    ensures EventsAt(events + [e], revision)
            == EventsAt(events, revision) + if e.revision == revision then [e] else []
  {
    if events != [] {
      assert (events + [e])[1..] == events[1..] + [e];
      EventsAtAppend(events[1..], e, revision);
    }
  }

  // --------------------------------------------------------- linear history

  ghost predicate RevisionOk(key: GoalKey, row: RevisionRow, revision: int) {
    row.body.revision == revision && row.body.scope == key.scope && row.body.id == key.id
    && ValidGoal(row.body) && row.createdAt >= 0
  }

  /** Exactly one well-formed event at this revision, with the revision's timestamp. */
  ghost predicate OneEvent(st: GoalStore, revision: int)
    requires revision in st.revisions
  {
    var at := EventsAt(st.events, revision);
    |at| == 1 && GoalEvent(at[0].event) && at[0].createdAt == st.revisions[revision].createdAt
  }

  /** The revisions are exactly 1..n, each with one event, and the row is the last of them. */
  ghost predicate Linear(key: GoalKey, st: GoalStore) {
    match st.row
    case None => st.revisions == map[] && st.events == []
    case Some(row) =>
      row.revision >= 1
      && (forall r :: r in st.revisions <==> 1 <= r <= row.revision)
      && row.body == st.revisions[row.revision].body
      && (forall r :: r in st.revisions ==> RevisionOk(key, st.revisions[r], r))
      && (forall r :: r in st.revisions ==> OneEvent(st, r))
      && (forall r :: r !in st.revisions ==> EventsAt(st.events, r) == [])
  }

  function Revision(st: GoalStore): int {
    match st.row
    case None => 0
    case Some(row) => row.revision
  }

  lemma NoEvents(revision: int)
    ensures EventsAt([], revision) == []
  {
  }

  lemma CommitKeepsLinear(key: GoalKey, st: GoalStore, goal: Goal, m: GoalMutation, event: string, now: int)
    requires Linear(key, st) && goal.revision == Revision(st) + 1
    requires ValidGoal(goal) && goal.scope == key.scope && goal.id == key.id
    requires GoalEvent(event) && now >= 0
    ensures Linear(key, WithGoalRevision(st, goal, m, event, now))
    ensures goal.revision !in st.revisions
  {
    hide ValidGoal, EventsAt, GoalEvent;
    var st' := WithGoalRevision(st, goal, m, event, now);
    var e := EventRow(goal.revision, event, now);
    forall r
      ensures EventsAt(st'.events, r) == EventsAt(st.events, r) + if r == goal.revision then [e] else []
    {
      EventsAtAppend(st.events, e, r);
    }
    forall r { NoEvents(r); }
    assert EventsAt(st.events, goal.revision) == [];
    forall r | r in st'.revisions
      ensures OneEvent(st', r)
    {
      if r != goal.revision {
        assert OneEvent(st, r);
      }
    }
  }

  // -------------------------------------------------------------- milestones

  type Milestones = map<string, Milestone>
  type History = map<(string, int), MilestoneRevisionRow>
  type Revisions = map<int, RevisionRow>

  /** The last history row of a milestone is at this goal revision. */
  ghost predicate Latest(history: History, id: string, revision: int) {
    (id, revision) in history && forall s :: (id, s) in history ==> s <= revision
  }

  /** The current row repeats the body of the latest history row. */
  ghost predicate MatchesHistory(milestones: Milestones, history: History, id: string)
    requires id in milestones
  {
    exists r :: Latest(history, id, r) && history[(id, r)].body == milestones[id]
  }

  /** Every milestone is well formed and stored under its own id. */
  ghost predicate WellShaped(milestones: Milestones) {
    forall id :: id in milestones ==> milestones[id].id == id && ValidMilestone(milestones[id])
  }

  ghost predicate AllMatch(milestones: Milestones, history: History) {
    forall id :: id in milestones ==> MatchesHistory(milestones, history, id)
  }

  ghost predicate Bounded(milestones: Milestones, history: History, current: int) {
    forall id, r :: (id, r) in history ==> id in milestones && 2 <= r <= current
  }

  ghost predicate MilestonesOk(milestones: Milestones, history: History, current: int) {
    |milestones| <= MAX_MILESTONES && WellShaped(milestones) && AllMatch(milestones, history)
    && Bounded(milestones, history, current)
  }

  // --------------------------------------------------------------- freshness

  /** Two goal bodies agree on everything a milestone with these dependencies used. */
  ghost predicate SameInputs(a: Goal, b: Goal, dependencies: set<string>) {
    SameHead(a, b) && forall d :: d in dependencies ==> SameParameter(a, b, d)
  }

  lemma SameInputsTransitive(a: Goal, b: Goal, c: Goal, dependencies: set<string>)
    requires SameInputs(a, b, dependencies) && SameInputs(b, c, dependencies)
    ensures SameInputs(a, c, dependencies)
  {
    forall d | d in dependencies
      ensures SameParameter(a, c, d)
    {
      assert SameParameter(a, b, d) && SameParameter(b, c, d);
    }
  }

  /** Every goal revision since `r` agrees with revision `r` on the milestone's inputs. */
  ghost predicate UnchangedSince(revisions: Revisions, dependencies: set<string>, r: int) {
    r in revisions
    && dependencies <= Keys(revisions[r].body.parameters)
    && forall s :: r <= s && s in revisions ==> SameInputs(revisions[r].body, revisions[s].body, dependencies)
  }

  /** A milestone not marked for refresh was recorded against inputs that still hold. */
  ghost predicate Fresh(milestones: Milestones, history: History, revisions: Revisions) {
    forall id, r :: id in milestones && !milestones[id].requiresRefresh && Latest(history, id, r) ==>
      UnchangedSince(revisions, milestones[id].dependencies, r)
  }

  ghost predicate StoreOk(key: GoalKey, st: GoalStore) {
    Linear(key, st)
    && MilestonesOk(st.milestones, st.history, Revision(st))
    && Fresh(st.milestones, st.history, st.revisions)
    && (st.row.None? ==> st.milestones == map[] && st.history == map[])
  }

  // ------------------------------------------------------- one step at a time

  /** A revision is added after the current one, which agrees on the inputs. */
  lemma ExtendUnchanged(revisions: Revisions, current: int, row: RevisionRow, dependencies: set<string>, r: int)
    requires UnchangedSince(revisions, dependencies, r) && current in revisions && r <= current
    requires SameInputs(revisions[current].body, row.body, dependencies)
    requires current + 1 !in revisions
    ensures UnchangedSince(revisions[current + 1 := row], dependencies, r)
  {
    SameInputsTransitive(revisions[r].body, revisions[current].body, row.body, dependencies);
  }

  lemma UnaffectedKeepsInputs(body: Milestone, prior: Goal, next: Goal)
    requires !Affected(body, prior, next)
    ensures SameInputs(prior, next, body.dependencies)
  {
    LookupOfKey(prior.parameters);
    LookupOfKey(next.parameters);
    forall d | d in body.dependencies
      ensures SameParameter(prior, next, d)
    {
      assert d !in ChangedParameters(prior, next);
    }
  }

  lemma StaleKeepsShape(milestones: Milestones, touched: set<string>)
    requires WellShaped(milestones)
    ensures WellShaped(StaleBodies(milestones, touched))
    ensures |StaleBodies(milestones, touched)| == |milestones|
  {
    var milestones' := StaleBodies(milestones, touched);
    assert milestones'.Keys == milestones.Keys;
    assert |milestones'| == |milestones'.Keys| && |milestones| == |milestones.Keys|;
    forall id | id in milestones'
      ensures ValidMilestone(milestones'[id])
    {
      assert ValidMilestone(milestones[id]);
    }
  }

  lemma InvalidationKeepsMatch(milestones: Milestones, history: History, current: int,
                               touched: set<string>, m: GoalMutation, now: int)
    requires AllMatch(milestones, history) && Bounded(milestones, history, current)
    requires current >= 1 && touched <= milestones.Keys
    ensures AllMatch(StaleBodies(milestones, touched), history + StaleRows(milestones, touched, current + 1, m, now))
    ensures Bounded(StaleBodies(milestones, touched), history + StaleRows(milestones, touched, current + 1, m, now), current + 1)
  {
    var milestones' := StaleBodies(milestones, touched);
    var rows := StaleRows(milestones, touched, current + 1, m, now);
    var history' := history + rows;
    forall id | id in milestones'
      ensures MatchesHistory(milestones', history', id)
    {
      assert MatchesHistory(milestones, history, id);
      if id in touched {
        assert (id, current + 1) in rows;
        assert Latest(history', id, current + 1);
      } else {
        var r :| Latest(history, id, r) && history[(id, r)].body == milestones[id];
        assert Latest(history', id, r);
      }
    }
  }

  lemma InvalidationKeepsMilestones(milestones: Milestones, history: History, current: int,
                                    touched: set<string>, m: GoalMutation, now: int)
    requires MilestonesOk(milestones, history, current) && current >= 1 && touched <= milestones.Keys
    ensures MilestonesOk(StaleBodies(milestones, touched),
                         history + StaleRows(milestones, touched, current + 1, m, now), current + 1)
    ensures forall id, r :: (id, r) in history ==> r <= current
  {
    hide WellShaped, AllMatch, Latest;
    StaleKeepsShape(milestones, touched);
    InvalidationKeepsMatch(milestones, history, current, touched, m, now);
  }

  lemma InvalidationKeepsFresh(milestones: Milestones, history: History, revisions: Revisions, current: int,
                               next: RevisionRow, touched: set<string>, m: GoalMutation, now: int)
    requires MilestonesOk(milestones, history, current) && Fresh(milestones, history, revisions)
    requires current in revisions && current + 1 !in revisions
    requires touched == set id | id in milestones && Affected(milestones[id], revisions[current].body, next.body)
    ensures Fresh(StaleBodies(milestones, touched),
                  history + StaleRows(milestones, touched, current + 1, m, now), revisions[current + 1 := next])
  {
    var milestones' := StaleBodies(milestones, touched);
    var history' := history + StaleRows(milestones, touched, current + 1, m, now);
    forall id, r | id in milestones' && !milestones'[id].requiresRefresh && Latest(history', id, r)
      ensures UnchangedSince(revisions[current + 1 := next], milestones'[id].dependencies, r)
    {
      assert id !in touched;
      assert (id, r) in history;
      assert Latest(history, id, r);
      UnaffectedKeepsInputs(milestones[id], revisions[current].body, next.body);
      ExtendUnchanged(revisions, current, next, milestones[id].dependencies, r);
    }
  }

  lemma RecordKeepsSize(milestones: Milestones, body: Milestone)
    requires |milestones| <= MAX_MILESTONES
    requires body.id in milestones || |milestones| < MAX_MILESTONES
    ensures |milestones[body.id := body]| <= MAX_MILESTONES
  {
    var milestones' := milestones[body.id := body];
    assert milestones'.Keys == milestones.Keys + {body.id};
    assert |milestones'| == |milestones'.Keys| && |milestones| == |milestones.Keys|;
    if body.id in milestones {
      assert milestones'.Keys == milestones.Keys;
    }
  }

  lemma RecordKeepsMatch(milestones: Milestones, history: History, current: int, body: Milestone, row: MilestoneRevisionRow)
    requires AllMatch(milestones, history) && Bounded(milestones, history, current)
    requires current >= 1 && row.body == body
    ensures AllMatch(milestones[body.id := body], history[(body.id, current + 1) := row])
    ensures Bounded(milestones[body.id := body], history[(body.id, current + 1) := row], current + 1)
  {
    var milestones' := milestones[body.id := body];
    var history' := history[(body.id, current + 1) := row];
    forall id | id in milestones'
      ensures MatchesHistory(milestones', history', id)
    {
      if id == body.id {
        assert Latest(history', id, current + 1);
      } else {
        assert MatchesHistory(milestones, history, id);
        var r :| Latest(history, id, r) && history[(id, r)].body == milestones[id];
        assert Latest(history', id, r);
      }
    }
  }

  lemma RecordKeepsMilestones(milestones: Milestones, history: History, current: int, body: Milestone, row: MilestoneRevisionRow)
    requires MilestonesOk(milestones, history, current) && current >= 1 && row.body == body && ValidMilestone(body)
    requires body.id in milestones || |milestones| < MAX_MILESTONES
    ensures MilestonesOk(milestones[body.id := body], history[(body.id, current + 1) := row], current + 1)
    ensures forall id, r :: (id, r) in history ==> r <= current
  {
    hide AllMatch, Latest, ValidMilestone;
    RecordKeepsSize(milestones, body);
    RecordKeepsMatch(milestones, history, current, body, row);
  }

  lemma RecordKeepsFresh(milestones: Milestones, history: History, revisions: Revisions, current: int,
                         body: Milestone, row: MilestoneRevisionRow, next: RevisionRow)
    requires MilestonesOk(milestones, history, current) && Fresh(milestones, history, revisions)
    requires current in revisions && forall r :: r in revisions ==> r <= current
    requires next.body == revisions[current].body.(revision := current + 1)
    requires body.dependencies <= Keys(next.body.parameters)
    ensures Fresh(milestones[body.id := body], history[(body.id, current + 1) := row], revisions[current + 1 := next])
  {
    var milestones' := milestones[body.id := body];
    var history' := history[(body.id, current + 1) := row];
    var revisions' := revisions[current + 1 := next];
    forall id, r | id in milestones' && !milestones'[id].requiresRefresh && Latest(history', id, r)
      ensures UnchangedSince(revisions', milestones'[id].dependencies, r)
    {
      if id == body.id {
        assert (id, current + 1) in history';
        assert r == current + 1;
      } else {
        assert (id, r) in history;
        assert Latest(history, id, r);
        ExtendUnchanged(revisions, current, next, milestones[id].dependencies, r);
      }
    }
  }
}
