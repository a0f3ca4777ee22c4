/**
 * functions/index.ts: `resetUserStepsDaily`, a scheduled function run at
 * 00:00 UTC. For every user document it reads `users/{uid}/activity/steps`;
 * when that record exists it stages a history entry holding the current
 * count and an update setting the count to 0, all in one write batch that is
 * committed once.
 */
module DailyReset {
  import opened Common
  import opened StepStore

  /** A document of `users/{uid}/activity/stepsHistory/history`. */
  datatype HistoryEntry = HistoryEntry(steps: int, timestamp: Time)

  /**
   * The parts of Firestore the job touches or could touch. `users` lists the
   * user documents in snapshot order; `steps` holds the `activity/steps`
   * records by user; `history` the archived entries by user (a collection, kept
   * here in insertion order); `userSteps` the tracker's collection.
   */
  datatype Db = Db(
    users: seq<UserId>,
    steps: map<UserId, StepsRecord>,
    history: map<UserId, seq<HistoryEntry>>,
    userSteps: seq<StepDoc>)

  /** A write staged in the batch: `batch.set` of a new history entry, or `batch.update` of a steps record. */
  datatype Write = Archive(user: UserId, entry: HistoryEntry) | Reset(user: UserId, at: Time)

  /** `stepsData?.steps || 0`. */
  function ArchivedValue(r: StepsRecord): int
  {
    OrElse(r.steps, 0)
  }

  /** `update({steps: 0, updatedAt})`: every other field is kept. */
  function ResetRecord(r: StepsRecord, at: Time): StepsRecord
  {
    r.(steps := Some(0), updatedAt := Some(at))
  }

  function HistoryOf(history: map<UserId, seq<HistoryEntry>>, u: UserId): seq<HistoryEntry>
  {
    if u in history then history[u] else []
  }

  /** The effect of one write once the batch commits. Only existing records are ever updated. */
  function Apply(db: Db, w: Write): Db
  {
    match w
    case Archive(u, e) => db.(history := db.history[u := HistoryOf(db.history, u) + [e]])
    case Reset(u, at) =>
      if u in db.steps then db.(steps := db.steps[u := ResetRecord(db.steps[u], at)]) else db
  }

  function ApplyAll(db: Db, batch: seq<Write>): Db
  {
    if batch == [] then db else Apply(ApplyAll(db, batch[..|batch| - 1]), batch[|batch| - 1])
  }

  /** The writes the loop body stages for user `u`, reading the records as they were before the batch. */
  function UserWrites(db: Db, now: Time, u: UserId): seq<Write>
  {
    if u in db.steps then [Archive(u, HistoryEntry(ArchivedValue(db.steps[u]), now)), Reset(u, now)] else []
  }

  /** The batch after the loop has visited `us`. */
  function Staged(db: Db, now: Time, us: seq<UserId>): seq<Write>
  {
    if us == [] then [] else Staged(db, now, us[..|us| - 1]) + UserWrites(db, now, us[|us| - 1])
  }

  predicate Distinct(us: seq<UserId>)
  {
    forall i, j :: 0 <= i < j < |us| ==> us[i] != us[j]
  }

  /**
   * One run. `now` is the server timestamp of the commit and `commitOk`
   * whether `batch.commit()` succeeds; a failed commit writes nothing.
   */
  method ResetUserStepsDaily(db: Db, now: Time, commitOk: bool) returns (after: Db, batch: seq<Write>)
    ensures batch == Staged(db, now, db.users)
    ensures after == if commitOk then ApplyAll(db, batch) else db
  {
    batch := [];
    var i := 0;
    while i < |db.users|
      invariant 0 <= i <= |db.users|
      invariant batch == Staged(db, now, db.users[..i])
    {
      var u := db.users[i];
      assert db.users[..i + 1][..i] == db.users[..i];
      if u !in db.steps {
        i := i + 1;
        continue;
      }
      var currentSteps := ArchivedValue(db.steps[u]);
      batch := batch + [Archive(u, HistoryEntry(currentSteps, now))];
      batch := batch + [Reset(u, now)];
      i := i + 1;
    }
    assert db.users[..|db.users|] == db.users;
    if commitOk {
      after := ApplyAll(db, batch);
    } else {
      after := db;
    }
  }

  lemma {:induction false} ApplyAllAppend(db: Db, a: seq<Write>, b: seq<Write>)
    ensures ApplyAll(db, a + b) == ApplyAll(ApplyAll(db, a), b)
    decreases |b|
  {
    if b == [] {
      assert a + b == a;
    } else {
      ApplyAllAppend(db, a, b[..|b| - 1]);
      assert (a + b)[..|a + b| - 1] == a + b[..|b| - 1];
    }
  }

  /** The writes staged for one user, applied in order. */
  lemma ApplyUserWritesSteps(s: Db, db: Db, now: Time, u: UserId)
    requires s.steps.Keys == db.steps.Keys
    ensures var r := ApplyAll(s, UserWrites(db, now, u));
      && r.users == s.users && r.userSteps == s.userSteps && r.steps.Keys == s.steps.Keys
      && (forall v :: v in s.steps ==> r.steps[v] == if v == u then ResetRecord(s.steps[v], now) else s.steps[v])
  {
    UserWritesInOrder(s, db, now, u);
  }

  lemma ApplyUserWritesHistory(s: Db, db: Db, now: Time, u: UserId, v: UserId)
    ensures HistoryOf(ApplyAll(s, UserWrites(db, now, u)).history, v) ==
      HistoryOf(s.history, v) + if v == u && u in db.steps then [HistoryEntry(ArchivedValue(db.steps[u]), now)] else []
  {
    UserWritesInOrder(s, db, now, u);
  }

  lemma UserWritesInOrder(s: Db, db: Db, now: Time, u: UserId)
    ensures var ws := UserWrites(db, now, u);
      ApplyAll(s, ws) == if u in db.steps then Apply(Apply(s, ws[0]), ws[1]) else s
  {
    var ws := UserWrites(db, now, u);
    if u in db.steps {
      assert ws[..1] == [ws[0]];
      assert ws[..1][..0] == [];
      assert ApplyAll(s, ws[..1]) == Apply(s, ws[0]);
    }
  }

  /** What the batch staged for the users `us` does to the steps records. */
  lemma {:induction false} StagedSteps(db: Db, now: Time, us: seq<UserId>)
    ensures var r := ApplyAll(db, Staged(db, now, us));
      && r.users == db.users && r.userSteps == db.userSteps && r.steps.Keys == db.steps.Keys
      && (forall v :: v in db.steps ==> r.steps[v] == if v in us then ResetRecord(db.steps[v], now) else db.steps[v])
  {
    if us != [] {
      var init := us[..|us| - 1];
      var u := us[|us| - 1];
      StagedSteps(db, now, init);
      var mid := ApplyAll(db, Staged(db, now, init));
      ApplyAllAppend(db, Staged(db, now, init), UserWrites(db, now, u));
      ApplyUserWritesSteps(mid, db, now, u);
      assert forall v :: v in us <==> v in init || v == u;
    }
  }

  /** What the batch staged for distinct users `us` does to the history of user `v`. */
  lemma {:induction false} StagedHistory(db: Db, now: Time, us: seq<UserId>, v: UserId)
    requires Distinct(us)
    ensures HistoryOf(ApplyAll(db, Staged(db, now, us)).history, v) ==
      HistoryOf(db.history, v) + if v in us && v in db.steps then [HistoryEntry(ArchivedValue(db.steps[v]), now)] else []
  {
    if us != [] {
      var init := us[..|us| - 1];
      var u := us[|us| - 1];
      StagedHistory(db, now, init, v);
      ApplyAllAppend(db, Staged(db, now, init), UserWrites(db, now, u));
      ApplyUserWritesHistory(ApplyAll(db, Staged(db, now, init)), db, now, u, v);
      assert u !in init;
      assert v in us <==> v in init || v == u;
    } else {
      assert Staged(db, now, us) == [];
    }
  }

  /** Every archive write in a batch carries the pre-reset value of a listed user that has a record. */
  lemma {:induction false} StagedArchives(db: Db, now: Time, us: seq<UserId>)
    ensures forall w :: w in Staged(db, now, us) && w.Archive? ==>
      w.user in us && w.user in db.steps && w.entry == HistoryEntry(ArchivedValue(db.steps[w.user]), now)
  {
    if us != [] {
      StagedArchives(db, now, us[..|us| - 1]);
    }
  }

  /**
   * After a committed run every listed record counts 0 steps and carries the
   * commit time; its other fields are kept; records the loop does not reach
   * (no user document) are untouched; the `userSteps` documents and the user
   * list are untouched.
   */
  lemma ResetZeroesListedRecords(db: Db, now: Time)
    ensures var after := ApplyAll(db, Staged(db, now, db.users));
      && after.steps.Keys == db.steps.Keys
      && (forall u :: u in db.steps && u in db.users ==>
            after.steps[u].steps == Some(0) && after.steps[u].updatedAt == Some(now) && after.steps[u].goal == db.steps[u].goal)
      && (forall u :: u in db.steps && u !in db.users ==> after.steps[u] == db.steps[u])
      && after.userSteps == db.userSteps && after.users == db.users
  {
    StagedSteps(db, now, db.users);
  }

  /**
   * Each listed user with a record gets exactly one new history entry with the
   * pre-reset count (0 when it was missing or 0); nobody else gets one.
   */
  lemma ResetArchivesOnce(db: Db, now: Time)
    requires Distinct(db.users)
    ensures var after := ApplyAll(db, Staged(db, now, db.users));
      && (forall u :: u in db.users && u in db.steps ==>
            HistoryOf(after.history, u) == HistoryOf(db.history, u) + [HistoryEntry(ArchivedValue(db.steps[u]), now)])
      && (forall u :: u !in db.users || u !in db.steps ==> HistoryOf(after.history, u) == HistoryOf(db.history, u))
  {
    forall u
      ensures HistoryOf(ApplyAll(db, Staged(db, now, db.users)).history, u) ==
        HistoryOf(db.history, u) + if u in db.users && u in db.steps then [HistoryEntry(ArchivedValue(db.steps[u]), now)] else []
    {
      StagedHistory(db, now, db.users, u);
    }
  }

  /** Nothing guards a second run: it archives a 0 for every listed user with a record. */
  lemma RerunArchivesZero(db: Db, now1: Time, now2: Time)
    requires Distinct(db.users)
    ensures var first := ApplyAll(db, Staged(db, now1, db.users));
      var second := ApplyAll(first, Staged(first, now2, first.users));
      forall u :: u in db.users && u in db.steps ==>
        HistoryOf(second.history, u) ==
          HistoryOf(db.history, u) + [HistoryEntry(ArchivedValue(db.steps[u]), now1), HistoryEntry(0, now2)]
  {
    var first := ApplyAll(db, Staged(db, now1, db.users));
    ResetZeroesListedRecords(db, now1);
    ResetArchivesOnce(db, now1);
    ResetArchivesOnce(first, now2);
    forall u | u in db.users && u in db.steps
      ensures ArchivedValue(first.steps[u]) == 0
    {
    }
  }

  /** A record of 4231 steps is archived as 4231 and reset to 0. */
  lemma ExampleReset(uid: UserId, goal: Option<int>, t0: Time, now: Time)
    ensures var db := Db([uid], map[uid := StepsRecord(Some(4231), goal, Some(t0))], map[], []);
      var after := ApplyAll(db, Staged(db, now, db.users));
      uid in after.steps && after.steps[uid] == StepsRecord(Some(0), goal, Some(now)) && HistoryOf(after.history, uid) == [HistoryEntry(4231, now)]
  {
    var db := Db([uid], map[uid := StepsRecord(Some(4231), goal, Some(t0))], map[], []);
    ResetZeroesListedRecords(db, now);
    ResetArchivesOnce(db, now);
  }
}
