/** A run on which the most-work rule fails: a push over a row whose parent was
    relinked after it was stored carries the parent's work past what the rows
    between them store (src/storage.rs:1221-1250). */
module MostWorkFails {
  import opened Wrappers
  import opened Headers
  import opened HeaderTable
  import opened CleanStore
  import opened Live
  import opened Bulk
  import opened Growth
  import opened Push
  import opened PushClean
  import opened MostWork
  import opened MostWorkPush
  import opened MostWorkTop
  import opened MostWorkLinks
  import opened MostWorkRuns
  import opened MostWorkStages
  import opened Runs

  // ── The push ─────────────────────────────────────────────────────────────

  /** The stage before the push: five active rows, the third linked under the
      second since, and the run that goes over the last two. */
  const BEFORE := [Told(Main(0), None, 1), Told(Main(2), Some(2), 3), Told(Main(1), Some(0), 2),
                   Told(Main(3), Some(1), 2), Told(Main(4), Some(3), 3)]

  const RUN := [Main(3), Main(4), Main(5)]

  lemma {:induction false} BeforePath(hs: seq<Header>, i: nat)
    requires Sound(hs) && |hs| == 5 && i < 5 && forall j :: 0 <= j < 5 ==> hs[j] == BEFORE[j].h
    ensures i in Path(hs, 4) && 2 in Path(hs, 4)
  {
    PathSelf(hs, 4);
    PathSelf(hs, 3);
    PathSelf(hs, 1);
    PathSelf(hs, 2);
    PathSelf(hs, 0);
    hide Path, Sound;
    ParentOnPath(hs, 4, 3);
    ParentOnPath(hs, 3, 1);
    ParentOnPath(hs, 1, 2);
    ParentOnPath(hs, 2, 0);
  }

  /** All five rows are active: they are the tip's stored ancestry. */
  lemma {:induction false} BeforeActive(db: Db, i: nat)
    requires Stage(db, BEFORE, 4) && i < 5
    ensures |db.rows| == 5 && db.rows[i].active && db.rows[i].h == BEFORE[i].h
  {
    StageFacts(db, BEFORE, 4);
    BeforePath(Heads(db.rows), i);
    hide Known, Sound, Inv, Path, Heads;
  }

  lemma {:induction false} RunIsLinked()
    ensures Linked(RUN) && AllIn(All(), RUN) && forall j :: 0 <= j < |RUN| ==> 0 < RUN[j].height && RUN[j].bits == RUN[j].time
  {
    assert Known(Main(3)) && Known(Main(4)) && Known(Main(5));
  }

  /** The five rows as the push finds them. */
  ghost predicate BeforeRows(t: seq<Row>) {
    |t| == 5 && forall i :: 0 <= i < 5 ==> t[i].active && t[i].h == BEFORE[i].h && t[i].work == BEFORE[i].work
  }

  lemma {:induction false} BeforeIs(db: Db)
    requires Stage(db, BEFORE, 4)
    ensures BeforeRows(db.rows)
  {
    TellsRows(db, BEFORE, 4);
    forall i: nat | i < 5 ensures db.rows[i].active && db.rows[i].h == BEFORE[i].h { BeforeActive(db, i); }
    hide Stage;
  }

  lemma {:induction false} BeforeTells()
    ensures |BEFORE| == 5 && BEFORE[1].h.hash == RUN[0].prev && BEFORE[4].h.hash == 5
    ensures forall i :: 0 <= i < |BEFORE| ==> BEFORE[i].h.hash != Main(5).hash
  {
  }

  lemma {:induction false} BeforeFinds(db: Db)
    requires Stage(db, BEFORE, 4)
    ensures Sound(Heads(db.rows)) && LinksTrue(db.rows) && GoodAt(OPEN, db.rows, 4) && |db.rows| == 5
    ensures ChainTip(db.rows) == Some(4)
    ensures Find(Heads(db.rows), RUN[0].prev) == Some(1) && Find(Heads(db.rows), 5) == Some(4)
    ensures Find(Heads(db.rows), Main(5).hash).None?
  {
    hide *;
    BeforeTells();
    StageFacts(db, BEFORE, 4);
    ToldHash(db, BEFORE, 4, 1);
    ToldHash(db, BEFORE, 4, 4);
    ToldNone(db, BEFORE, 4, Main(5).hash);
  }

  lemma {:induction false} BeforeNoRival(t: seq<Row>)
    requires BeforeRows(t) && Find(Heads(t), RUN[0].prev) == Some(1)
    ensures !Competes(t, RUN) && RunWork(t, RUN) == 3 && StandsOnStored(t, RUN) && RUN != []
    ensures ActiveRow(t, RUN[0]) && ActiveRow(t, RUN[1])
  {
    hide Find, Heads, ChainTip;
    assert t[3].active && t[3].h == RUN[0] && t[4].active && t[4].h == RUN[1] && t[1].active;
  }

  /** What the push finds: the parent's work, no rule broken, no rival. */
  lemma {:induction false} PushFinds(db: Db)
    requires Stage(db, BEFORE, 4)
    ensures Sound(Heads(db.rows)) && RUN != [] && JudgeRun(OPEN, db.rows, RUN).None? && !Competes(db.rows, RUN)
    ensures RunWork(db.rows, RUN) == 3 && StandsOnStored(db.rows, RUN)
    ensures ActiveRow(db.rows, RUN[0]) && ActiveRow(db.rows, RUN[1])
  {
    RunIsLinked();
    BeforeIs(db);
    BeforeFinds(db);
    assert db.rows[1].h.height == 2 && RUN[0].height == 3;
    hide *;
    BeforeNoRival(db.rows);
    OpenRun(db.rows, RUN, 1);
  }

  lemma {:induction false} PlaceNew(t: seq<Row>, h: Header, work: nat)
    requires Find(Heads(t), h.hash).None?
    ensures Place(t, h, work) == t + [Row(h, None, true, false, work)]
  {
  }

  /** Two headers active already and a new one. */
  lemma {:induction false} PlacesLast(p: Params, t: seq<Row>, run: seq<Header>, work: nat, more: nat)
    requires Sound(Heads(t)) && |run| == 3 && ActiveRow(t, run[0]) && ActiveRow(t, run[1]) && Find(Heads(t), run[2].hash).None?
    requires more == work + p.work(run[0].bits) + p.work(run[1].bits) + p.work(run[2].bits)
    ensures PlaceRun(p, t, run, work) == t + [Row(run[2], None, true, false, more)]
  {
    hide *;
    PlaceRunNext(p, t, run, work);
    PlaceSame(t, run[0], work + p.work(run[0].bits));
    PlaceRunNext(p, t, run[1..], work + p.work(run[0].bits));
    PlaceSame(t, run[1], more - p.work(run[2].bits));
    PlaceRunNext(p, t, run[1..][1..], more - p.work(run[2].bits));
    PlaceNew(t, run[2], more);
    assert run[1..][1..][1..] == [];
    PlaceRunEmpty(p, Place(t, run[2], more), more);
  }

  lemma {:induction false} PushPlaces(db: Db)
    requires Stage(db, BEFORE, 4)
    ensures PlaceRun(OPEN, db.rows, RUN, 3) == db.rows + [Row(Main(5), None, true, false, 6)]
  {
    BeforeFinds(db);
    PushFinds(db);
    hide Stage, BeforeRows, Sound, Heads, Find, JudgeRun, ChainTip, PlaceRun, ActiveRow, Competes, LinksTrue, GoodAt,
         RunWork, StandsOnStored;
    PlacesLast(OPEN, db.rows, RUN, 3, 6);
  }

  /** After the push its last header is the tip, with the parent's work carried on
      to 6. */
  const PUSHED_UP := BEFORE + [Told(Main(5), Some(4), 6)]

  lemma {:induction false} FinishedTold(t: seq<Row>, v: seq<Row>, u: seq<Row>)
    requires Tells(t, BEFORE) && v == t + [Row(Main(5), None, true, false, 6)]
    requires Finished(v, u, 5, 3, 6) && Find(Heads(v), 5) == Some(4)
    ensures Tells(u, PUSHED_UP)
  {
    hide Heads, Find;
    forall i | 0 <= i < 6 ensures u[i].h == PUSHED_UP[i].h && u[i].link == PUSHED_UP[i].link && u[i].work == PUSHED_UP[i].work {
      assert u[i].h == v[i].h && u[i].work == v[i].work && u[i].link == LinkIn(v, i, 3, 6);
      if i < 5 { assert v[i] == t[i]; }
    }
  }

  lemma {:induction false} RowLow(t: seq<Row>, i: nat, q: nat)
    requires Sound(Heads(t)) && i < |t| && q < |t| && t[i].h.prev == t[q].h.hash && t[i].work <= t[q].work + 1
    ensures t[i].work <= WorkBelow(t, i) + OPEN.work(t[i].h.bits)
  {
    ParentIs(Heads(t), i, q);
    hide Sound, Parent;
  }

  /** What the rows of the stage store. */
  lemma {:induction false} BeforeStores(t: seq<Row>)
    requires Tells(t, BEFORE)
    ensures |t| == 5 && t[0].work == 1 && t[0].h.bits == 0
    ensures t[1].work == 3 && t[2].work == 2 && t[3].work == 2 && t[4].work == 3
    ensures t[1].h.prev == t[2].h.hash && t[2].h.prev == t[0].h.hash && t[3].h.prev == t[1].h.hash && t[4].h.prev == t[3].h.hash
  {
    var told := BEFORE;
    assert |told| == 5 && told[0].work == 1 && told[1].work == 3 && told[2].work == 2 && told[3].work == 2 && told[4].work == 3;
  }

  lemma {:induction false} FiveLow(t: seq<Row>)
    requires |t| == 5 && t[0].work == 1 && t[0].h.bits == 0
    requires forall i: nat :: 0 < i < 5 ==> t[i].work <= WorkBelow(t, i) + OPEN.work(t[i].h.bits)
    ensures WorkLow(OPEN, t)
  {
    hide WorkBelow;
    assert OPEN.work(0) == 1;
  }

  lemma {:induction false} BeforeLow(db: Db)
    requires Stage(db, BEFORE, 4)
    ensures WorkLow(OPEN, db.rows)
  {
    var t := db.rows;
    hide *;
    StageFacts(db, BEFORE, 4);
    TellsRows(db, BEFORE, 4);
    BeforeStores(t);
    RowLow(t, 1, 2);
    RowLow(t, 2, 0);
    RowLow(t, 3, 1);
    RowLow(t, 4, 3);
    FiveLow(t);
  }

  /** The push carries the parent's work, 3, to a sum of 5 below the new header,
      and the tip it stands on has 3. */
  lemma {:induction false} SumsMiss(t: seq<Row>)
    requires |t| == 5 && t[4].work == 3 && t[4].h == Main(4)
    ensures !SumsMeet(OPEN, t, 4, RUN, 3)
  {
    assert RUN[1..] == [Main(4), Main(5)] && [Main(4), Main(5)][1..] == [Main(5)];
    assert !SumsMeet(OPEN, t, 4, [Main(5)], 5);
    assert !SumsMeet(OPEN, t, 4, [Main(4), Main(5)], 4);
  }

  lemma {:induction false} DoneOnTop(p: Params, t: seq<Row>, run: seq<Header>, v: seq<Row>, y: nat, row: Row)
    requires |t| == 5 && run != [] && BulkDone(p, t, 4, run, v, y) && v == t + [row] && row.h == run[|run| - 1]
    requires Sound(Heads(v))
    ensures y == 5
  {
    hide Grown, AllActive, WorkKept, PlacedUnder, ActiveUnder, KeepsActive, SumWork, RunWork;
    assert v[5].h == v[y].h;
    hide Sound, Heads;
    SameRowAs(v, 5, y);
  }

  lemma {:induction false} DoneFrom(p: Params, db: Db, run: seq<Header>, y: nat, u: seq<Row>, v: seq<Row>)
    requires 4 < |db.rows| && run != [] && BulkServed(p, db, 4, run, y, u) && v == InsertBulk(p, db, run).rows
    ensures BulkDone(p, db.rows, 4, run, v, y) && GoodAt(p, u, y)
    ensures Finished(v, u, y, run[0].height, run[|run| - 1].height + 1)
  {
    hide BulkDone, GoodAt, Finished, InsertBulk;
  }

  lemma {:induction false} FoundStill(t: seq<Row>, row: Row, hash: Hash, i: nat)
    requires Find(Heads(t), hash) == Some(i) && Sound(Heads(t + [row]))
    ensures Find(Heads(t + [row]), hash) == Some(i)
  {
    assert Heads(t + [row])[i] == Heads(t)[i];
    hide Sound, Heads;
    FindIs(Heads(t + [row]), i, hash);
  }

  lemma {:induction false} DoneSound(p: Params, t: seq<Row>, run: seq<Header>, v: seq<Row>, y: nat)
    requires 4 < |t| && run != [] && BulkDone(p, t, 4, run, v, y)
    ensures Sound(Heads(v))
  {
    DoneGrown(p, t, 4, run, v, y);
    GrownSound(p, v, 4, y);
  }

  lemma {:induction false} RunHeights()
    ensures RUN != [] && RUN[0].height == 3 && RUN[|RUN| - 1] == Main(5) && Main(5).height + 1 == 6
  {
  }

  lemma {:induction false} BeforeLast(t: seq<Row>)
    requires BeforeRows(t)
    ensures |t| == 5 && t[4].h == Main(4) && t[4].work == 3
  {
  }

  lemma {:induction false} PushServes(db: Db)
    requires Stage(db, BEFORE, 4)
    ensures AllIn(All(), RUN) && Agree(All()) && AllIn(All(), Heads(db.rows)) && Sound(Heads(db.rows))
    ensures var (after, verdict) := IngestPushed(All(), OPEN, db, RUN);
            && verdict == Some(Served) && Tells(after.rows, PUSHED_UP) && GoodAt(OPEN, after.rows, 5)
            && !WorkLow(OPEN, after.rows)
  {
    hide *;
    RunIsLinked();
    RunHeights();
    BeforeIs(db);
    BeforeLast(db.rows);
    var v := db.rows + [Row(Main(5), None, true, false, 6)];
    StageKnows(db, BEFORE, 4);
    BeforeFinds(db);
    PushFinds(db);
    BeforeLow(db);
    SumsMiss(db.rows);
    TellsRows(db, BEFORE, 4);
    var y := PushBulkWorks(All(), OPEN, db, 4, RUN);
    PushPlaces(db);
    InsertBulkPlaces(All(), OPEN, db, RUN);
    var u := IngestPushed(All(), OPEN, db, RUN).0.rows;
    DoneFrom(OPEN, db, RUN, y, u, v);
    DoneSound(OPEN, db.rows, RUN, v, y);
    DoneOnTop(OPEN, db.rows, RUN, v, y, Row(Main(5), None, true, false, 6));
    FoundStill(db.rows, Row(Main(5), None, true, false, 6), 5, 4);
    FinishedTold(db.rows, v, u);
  }

  lemma {:induction false} BulkAnswer(all: iset<Header>, p: Params, db: Db, run: seq<Header>)
    requires Agree(all) && AllIn(all, run) && Sound(Heads(db.rows)) && AllIn(all, Heads(db.rows))
    requires run != [] && JudgeRun(p, db.rows, run).None? && !Competes(db.rows, run)
    ensures InsertHeadersBatch(all, p, db, run).1 == Added(false, 0)
  {
    hide Agree, AllIn, Sound, Heads, JudgeRun, Competes, Run, BulkStmts, InsertEach, RunWork;
  }

  lemma {:induction false} NewLinksLow(p: Params, t: seq<Row>, run: seq<Header>)
    requires run != [] && !Competes(t, run) && !AllActive(t, run)
    ensures LinksLow(p, t, run)
  {
    hide Competes, AllActive;
  }

  lemma {:induction false} PushCallIs(all: iset<Header>, p: Params, db: Db, run: seq<Header>)
    requires Inv(all, p, db) && AllIn(all, run) && StandsOnStored(db.rows, run) && LinksLow(p, db.rows, run)
    requires Agree(all) && AllIn(all, Heads(db.rows)) && Sound(Heads(db.rows))
    requires InsertHeadersBatch(all, p, db, run).1 == Added(false, 0)
    ensures Allowed(all, db, PushCall(run)) && RunsThrough(all, p, db, PushCall(run))
    ensures After(all, p, db, PushCall(run)) == IngestPushed(all, p, db, run).0
  {
    hide Inv, Agree, AllIn, Heads, Sound, StandsOnStored, LinksLow, InsertHeadersBatch, IngestPushed, InsertHeader, RelinkOrphan;
  }

  /** A push that finds no rival and adds a row runs through. */
  lemma {:induction false} PushRuns(all: iset<Header>, p: Params, db: Db, run: seq<Header>)
    requires Inv(all, p, db) && AllIn(all, run) && StandsOnStored(db.rows, run) && run != []
    requires Agree(all) && AllIn(all, Heads(db.rows))
    requires Sound(Heads(db.rows)) && JudgeRun(p, db.rows, run).None? && !Competes(db.rows, run) && !AllActive(db.rows, run)
    ensures Allowed(all, db, PushCall(run)) && RunsThrough(all, p, db, PushCall(run))
    ensures After(all, p, db, PushCall(run)) == IngestPushed(all, p, db, run).0
    ensures Inv(all, p, IngestPushed(all, p, db, run).0)
  {
    hide *;
    BulkAnswer(all, p, db, run);
    NewLinksLow(p, db.rows, run);
    PushCallIs(all, p, db, run);
    CallKeeps(all, p, db, PushCall(run));
  }

  lemma {:induction false} NotAllActive(t: seq<Row>)
    requires Find(Heads(t), Main(5).hash).None?
    ensures !AllActive(t, RUN)
  {
    assert RUN[2] == Main(5);
    forall i | 0 <= i < |t| ensures t[i].h != Main(5) { assert Heads(t)[i] == t[i].h; }
    assert !ActiveRow(t, RUN[2]);
  }

  /** The push is served, runs through, and does not accumulate. */
  lemma {:induction false} Pushes(db: Db)
    requires Stage(db, BEFORE, 4)
    ensures Allowed(All(), db, PushCall(RUN)) && Inv(All(), OPEN, db) && RunsThrough(All(), OPEN, db, PushCall(RUN))
    ensures Stage(After(All(), OPEN, db, PushCall(RUN)), PUSHED_UP, 5)
    ensures !WorkLow(OPEN, After(All(), OPEN, db, PushCall(RUN)).rows)
  {
    assert |PUSHED_UP| == 6;
    hide *;
    RunIsLinked();
    StageKnows(db, BEFORE, 4);
    BeforeFinds(db);
    PushFinds(db);
    NotAllActive(db.rows);
    PushRuns(All(), OPEN, db, RUN);
    PushServes(db);
    StageIs(IngestPushed(All(), OPEN, db, RUN).0, PUSHED_UP, 5);
  }

  // ── The run ──────────────────────────────────────────────────────────────

  lemma {:induction false} EndsPushes(calls: seq<Call>)
    requires Ends(calls, BEFORE, 4)
    ensures Ends(calls + [PushCall(RUN)], PUSHED_UP, 5)
  {
    hide *;
    EndsParts(calls, BEFORE, 4);
    var db := Replay(All(), OPEN, EMPTY, calls);
    Pushes(db);
    OneMore(EMPTY, calls, PushCall(RUN));
    EndsIs(calls + [PushCall(RUN)], PUSHED_UP, 5);
  }

  /** The five headers as they come in: an orphan before its parent, a second
      orphan's child over it that wins the tip. */
  const SECOND := FIRST + [Told(Main(2), None, 1)]
  const THIRD := SECOND + [Told(Main(1), Some(0), 2)]
  const FOURTH := THIRD + [Told(Main(3), Some(1), 2)]
  const FIFTH := FOURTH + [Told(Main(4), Some(3), 3)]

  const FIRST_FOUR := [InsertCall(Main(0), 9)] + [InsertCall(Main(2), 9)] + [InsertCall(Main(1), 9)] + [InsertCall(Main(3), 9)]

  const STORES := FIRST_FOUR + [InsertCall(Main(4), 9)] + [RelinkCall(3, 9)]

  lemma {:induction false} FifthHeads(t: seq<Row>, row: Row)
    requires Tells(t, FOURTH) && row.h == Main(4)
    ensures |t| == 4 && forall j :: 0 <= j < 5 ==> Heads(t + [row])[j] == BEFORE[j].h
  {
    hide Heads;
    forall j | 0 <= j < 5 ensures Heads(t + [row])[j] == BEFORE[j].h {
      assert Heads(t + [row])[j] == (t + [row])[j].h;
      if j < 4 { assert t[j].h == FOURTH[j].h; }
    }
  }

  /** The fifth header's stored ancestry goes through the orphan to the tip. */
  lemma {:induction false} FifthMeets(db: Db)
    requires Stage(db, FOURTH, 2)
    ensures MeetsAt(db.rows + [Row(Main(4), Some(3), false, false, 3)], 4, 2)
  {
    var row := Row(Main(4), Some(3), false, false, 3);
    var hs := Heads(db.rows + [row]);
    NewFifth();
    hide *;
    StageFacts(db, FOURTH, 2);
    NewAdmitted(db, FOURTH, 2, Main(4), Some(3));
    NewParent(db, FOURTH, 2, Main(4), Some(3));
    InsertedFits(db, row);
    TellsRows(db, FOURTH, 2);
    FifthHeads(db.rows, row);
    BeforePath(hs, 0);
    assert hs[4].height <= 400 by { FifthHeight(); }
    MeetsTip(hs, 4, 2);
    MeetsIs(db.rows + [row], 4, 2, 2);
  }

  lemma {:induction false} FifthHeight()
    ensures |BEFORE| == 5 && BEFORE[4].h.height == 4
  {
  }

  lemma {:induction false} NewFifth()
    ensures |FOURTH| == 4 && New(FOURTH, Main(4), Some(3)) && FOURTH[2].work == 2 && FOURTH[3].work == 2 && Main(4).bits == 0
    ensures FIFTH == FOURTH + [Told(Main(4), Some(3), FOURTH[3].work + 1)]
    ensures Outworks(FOURTH, 2, Main(4), 3, Row(Main(4), Some(3), false, false, 3))
  {
    assert Known(Main(4));
  }

  lemma {:induction false} StoresFacts()
    ensures New(FIRST, Main(2), None) && Told(Main(2), None, 1) == Told(Main(2), None, WorkOn(FIRST, Main(2), None)) && |FIRST| == 1
    ensures |SECOND| == 2 && New(SECOND, Main(1), Some(0)) && SECOND[0].work == 1 && Main(1).bits == 0
    ensures |THIRD| == 3 && New(THIRD, Main(3), Some(1)) && WorkOn(THIRD, Main(3), Some(1)) == 2 && THIRD[2].work == 2
    ensures |FIFTH| == 5 && Orphan(FIFTH, 4, 1, 2) && FIFTH[1].h == Main(2) && FIFTH[2].work == 2 && Main(2).bits == 0
    ensures FIFTH[1 := Told(Main(2), Some(2), 3)] == BEFORE && Main(2).hash == 3
  {
    assert Known(Main(1)) && Known(Main(2)) && Known(Main(3));
  }

  lemma {:induction false} StageLists()
    ensures SECOND == FIRST + [Told(Main(2), None, 1)] && THIRD == SECOND + [Told(Main(1), Some(0), 2)]
    ensures FOURTH == THIRD + [Told(Main(3), Some(1), 2)] && BEFORE == FIFTH[1 := Told(Main(2), Some(2), 3)]
    ensures STORES == FIRST_FOUR + [InsertCall(Main(4), 9)] + [RelinkCall(Told(Main(2), Some(2), 3).h.hash, 9)]
    ensures FIRST_FOUR == [InsertCall(Main(0), 9)] + [InsertCall(Main(2), 9)] + [InsertCall(Main(1), 9)] + [InsertCall(Main(3), 9)]
  {
  }

  lemma {:induction false} EndsFourth()
    ensures Ends(FIRST_FOUR, FOURTH, 2)
  {
    hide *;
    StoresFacts();
    StageLists();
    EndsFirst();
    EndsWaits([InsertCall(Main(0), 9)], FIRST, 0, Main(2), None, Told(Main(2), None, 1));
    EndsExtends([InsertCall(Main(0), 9)] + [InsertCall(Main(2), 9)], SECOND, 0, Main(1), Told(Main(1), Some(0), 2));
    EndsWaits([InsertCall(Main(0), 9)] + [InsertCall(Main(2), 9)] + [InsertCall(Main(1), 9)], THIRD, 2, Main(3), Some(1),
              Told(Main(3), Some(1), 2));
  }

  lemma {:induction false} EndsFifth()
    ensures Ends(FIRST_FOUR + [InsertCall(Main(4), 9)], FIFTH, 4)
  {
    hide *;
    NewFifth();
    EndsFourth();
    forall db: Db | Stage(db, FOURTH, 2) ensures MeetsAt(db.rows + [Row(Main(4), Some(3), false, false, 3)], 4, 2) {
      FifthMeets(db);
    }
    EndsWins(FIRST_FOUR, FOURTH, 2, Main(4), 3, Told(Main(4), Some(3), 3));
  }

  /** The six calls before the push. */
  lemma {:induction false} EndsBefore()
    ensures Ends(STORES, BEFORE, 4)
  {
    hide *;
    StoresFacts();
    StageLists();
    EndsFifth();
    EndsRelinks(FIRST_FOUR + [InsertCall(Main(4), 9)], FIFTH, 4, 1, 2, Told(Main(2), Some(2), 3));
  }

  /** After the push a side branch off the header below the tip, then the tip's
      own row relinked. */
  const SIDED := PUSHED_UP + [Told(SIDE, Some(4), 4)] + [Told(SIDE_TOP, Some(6), 5)]
  const LAST := SIDED[5 := Told(Main(5), Some(4), 4)]

  const CALLS := STORES + [PushCall(RUN)] + [InsertCall(SIDE, 9)] + [InsertCall(SIDE_TOP, 9)]

  lemma {:induction false} SideFacts()
    ensures |PUSHED_UP| == 6 && New(PUSHED_UP, SIDE, Some(4)) && WorkOn(PUSHED_UP, SIDE, Some(4)) == 4 && PUSHED_UP[5].work == 6
    ensures |PUSHED_UP + [Told(SIDE, Some(4), 4)]| == 7
    ensures New(PUSHED_UP + [Told(SIDE, Some(4), 4)], SIDE_TOP, Some(6))
    ensures WorkOn(PUSHED_UP + [Told(SIDE, Some(4), 4)], SIDE_TOP, Some(6)) == 5
    ensures (PUSHED_UP + [Told(SIDE, Some(4), 4)])[5].work == 6
    ensures |SIDED| == 8 && Orphan(SIDED, 5, 5, 4) && SIDED[5].h == Main(5) && SIDED[4].work == 3 && Main(5).hash == 6 && Main(5).bits == 0
    ensures SIDED == PUSHED_UP + [Told(SIDE, Some(4), 4)] + [Told(SIDE_TOP, Some(6), 5)]
    ensures LAST == SIDED[5 := Told(Main(5), Some(4), 4)]
    ensures CALLS == STORES + [PushCall(RUN)] + [InsertCall(SIDE, 9)] + [InsertCall(SIDE_TOP, 9)]
  {
  }

  lemma {:induction false} EndsSided()
    ensures Ends(CALLS, SIDED, 5)
  {
    SideFacts();
    hide *;
    EndsBefore();
    EndsPushes(STORES);
    EndsWaits(STORES + [PushCall(RUN)], PUSHED_UP, 5, SIDE, Some(4), Told(SIDE, Some(4), 4));
    EndsWaits(STORES + [PushCall(RUN)] + [InsertCall(SIDE, 9)], PUSHED_UP + [Told(SIDE, Some(4), 4)], 5, SIDE_TOP, Some(6),
              Told(SIDE_TOP, Some(6), 5));
  }

  /** From an empty store, ten calls that all run through, the push served: after
      nine of them the tip's row has work 6; the tenth relinks that row and
      leaves it the tip with work 4, and a row linked above it has 5. */
  lemma {:induction false} PushedWorkFallsBack()
    ensures Inv(All(), OPEN, EMPTY) && AllRunThrough(All(), OPEN, EMPTY, CALLS + [RelinkCall(6, 9)])
    ensures var t := Replay(All(), OPEN, EMPTY, CALLS).rows;
            var u := Replay(All(), OPEN, EMPTY, CALLS + [RelinkCall(6, 9)]).rows;
            && ChainTip(t) == Some(5) && |t| == 8 && t[5].work == 6
            && ChainTip(u) == Some(5) && |u| == 8 && u[5].work == 4
            && u[7].link.Some? && u[7].work == 5 && !TopLinked(u)
  {
    SideFacts();
    hide *;
    EndsSided();
    EndsRelinks(CALLS, SIDED, 5, 5, 4, Told(Main(5), Some(4), 4));
    EndsParts(CALLS, SIDED, 5);
    EndsParts(CALLS + [RelinkCall(6, 9)], LAST, 5);
    StageFacts(Replay(All(), OPEN, EMPTY, CALLS), SIDED, 5);
    StageFacts(Replay(All(), OPEN, EMPTY, CALLS + [RelinkCall(6, 9)]), LAST, 5);
    SidedIs();
    ToldRow(Replay(All(), OPEN, EMPTY, CALLS), SIDED, 5, 5);
    ToldRow(Replay(All(), OPEN, EMPTY, CALLS + [RelinkCall(6, 9)]), LAST, 5, 5);
    ToldRow(Replay(All(), OPEN, EMPTY, CALLS + [RelinkCall(6, 9)]), LAST, 5, 7);
    Outworked(Replay(All(), OPEN, EMPTY, CALLS + [RelinkCall(6, 9)]).rows, 5, 7);
  }

  lemma {:induction false} SidedIs()
    ensures |SIDED| == 8 && SIDED[5].work == 6
    ensures |LAST| == 8 && LAST[5].work == 4 && LAST[7].link.Some? && LAST[7].work == 5
  {
  }
}
