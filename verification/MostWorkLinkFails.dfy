/** A run on which a push links a row that outworks the tip: the row was stored
    without a parent link, its work its own alone, and came to be active under
    rows that were stored without one too (src/storage.rs:1527-1537). */
module MostWorkLinkFails {
  import opened Wrappers
  import opened Headers
  import opened HeaderTable
  import opened CleanStore
  import opened Live
  import opened Bulk
  import opened Growth
  import opened Push
  import opened PushClean
  import opened MostWork
  import opened MostWorkPush
  import opened MostWorkTop
  import opened MostWorkLinks
  import opened MostWorkRuns
  import opened MostWorkStages
  import opened Runs

  // ── The stages ───────────────────────────────────────────────────────────

  const ORPHANED := FIRST + [Told(Light(0), None, 1)]
  const HEAVED := ORPHANED + [Told(HEAVY, None, 10)]
  const FILLED := HEAVED + [Told(Main(1), Some(0), 2)]
  const CLOSE := FILLED + [Told(Light(1), Some(1), 2)]
  const TAKEN := CLOSE + [Told(Light(2), Some(4), 3)]

  const FOUR_IN := [InsertCall(Main(0), 9)] + [InsertCall(Light(0), 9)] + [InsertCall(HEAVY, 9)] + [InsertCall(Main(1), 9)]

  const FILLS := FOUR_IN + [InsertCall(Light(1), 9)] + [InsertCall(Light(2), 9)]

  lemma {:induction false} StageFits()
    ensures |FIRST| == 1 && |ORPHANED| == 2 && |HEAVED| == 3 && |FILLED| == 4 && |CLOSE| == 5 && |TAKEN| == 6
    ensures New(FIRST, Light(0), None) && WorkOn(FIRST, Light(0), None) == 1
    ensures New(ORPHANED, HEAVY, None) && WorkOn(ORPHANED, HEAVY, None) == 10
    ensures New(HEAVED, Main(1), Some(0)) && HEAVED[0].work == 1 && Main(1).bits == 0
    ensures New(FILLED, Light(1), Some(1)) && WorkOn(FILLED, Light(1), Some(1)) == 2 && FILLED[3].work == 2
    ensures Outworks(CLOSE, 3, Light(2), 4, Row(Light(2), Some(4), false, false, 3))
    ensures New(CLOSE, Light(2), Some(4))
  {
  }

  lemma {:induction false} StageLists()
    ensures ORPHANED == FIRST + [Told(Light(0), None, 1)] && HEAVED == ORPHANED + [Told(HEAVY, None, 10)]
    ensures FILLED == HEAVED + [Told(Main(1), Some(0), 2)] && CLOSE == FILLED + [Told(Light(1), Some(1), 2)]
    ensures TAKEN == CLOSE + [Told(Light(2), Some(4), 3)]
    ensures FOUR_IN == [InsertCall(Main(0), 9)] + [InsertCall(Light(0), 9)] + [InsertCall(HEAVY, 9)] + [InsertCall(Main(1), 9)]
    ensures FILLS == FOUR_IN + [InsertCall(Light(1), 9)] + [InsertCall(Light(2), 9)]
  {
  }

  lemma {:induction false} EndsFilled()
    ensures Ends(FOUR_IN, FILLED, 3)
  {
    hide *;
    StageFits();
    StageLists();
    EndsFirst();
    EndsWaits([InsertCall(Main(0), 9)], FIRST, 0, Light(0), None, Told(Light(0), None, 1));
    EndsWaits([InsertCall(Main(0), 9)] + [InsertCall(Light(0), 9)], ORPHANED, 0, HEAVY, None, Told(HEAVY, None, 10));
    EndsExtends([InsertCall(Main(0), 9)] + [InsertCall(Light(0), 9)] + [InsertCall(HEAVY, 9)], HEAVED, 0, Main(1),
                Told(Main(1), Some(0), 2));
  }

  /** The headers of the last stage: down from the last row through the heavy one
      to the genesis. */
  ghost predicate Taken(hs: seq<Header>) {
    |hs| == 6 && forall j :: 0 <= j < 6 ==> hs[j] == TAKEN[j].h
  }

  lemma {:induction false} TakenPath(hs: seq<Header>, i: nat)
    requires Sound(hs) && Taken(hs) && i < 6
    ensures i in Path(hs, 5)
  {
    PathSelf(hs, i);
    PathSelf(hs, 5);
    hide Path, Sound;
    ParentOnPath(hs, 5, 4);
    ParentOnPath(hs, 4, 1);
    ParentOnPath(hs, 1, 2);
    ParentOnPath(hs, 2, 3);
    ParentOnPath(hs, 3, 0);
  }

  lemma {:induction false} TakenHeads(t: seq<Row>, row: Row)
    requires Tells(t, CLOSE) && row.h == Light(2)
    ensures |t| == 5 && Taken(Heads(t + [row]))
  {
    hide Heads;
    forall j | 0 <= j < 6 ensures Heads(t + [row])[j] == TAKEN[j].h {
      assert Heads(t + [row])[j] == (t + [row])[j].h;
      if j < 5 { assert t[j].h == CLOSE[j].h; }
    }
  }

  lemma {:induction false} TakenLow()
    ensures |TAKEN| == 6 && TAKEN[5].h.height == 5 && TAKEN[3].h.hash == HEAVY.prev
  {
  }

  lemma {:induction false} LastMeets(db: Db)
    requires Stage(db, CLOSE, 3)
    ensures MeetsAt(db.rows + [Row(Light(2), Some(4), false, false, 3)], 5, 3)
  {
    hide *;
    var row := Row(Light(2), Some(4), false, false, 3);
    var hs := Heads(db.rows + [row]);
    StageFits();
    StageFacts(db, CLOSE, 3);
    NewAdmitted(db, CLOSE, 3, Light(2), Some(4));
    NewParent(db, CLOSE, 3, Light(2), Some(4));
    InsertedFits(db, row);
    TellsRows(db, CLOSE, 3);
    TakenHeads(db.rows, row);
    TakenPath(hs, 3);
    TakenLow();
    TakenIs(hs);
    MeetsTip(hs, 5, 3);
    MeetsIs(db.rows + [row], 5, 3, 3);
  }

  lemma {:induction false} TakenIs(hs: seq<Header>)
    requires Taken(hs)
    ensures |hs| == 6 && |TAKEN| == 6 && forall j :: 0 <= j < 6 ==> hs[j] == TAKEN[j].h
  {
  }

  lemma {:induction false} EndsTaken()
    ensures Ends(FILLS, TAKEN, 5)
  {
    hide *;
    StageFits();
    StageLists();
    EndsFilled();
    EndsWaits(FOUR_IN, FILLED, 3, Light(1), Some(1), Told(Light(1), Some(1), 2));
    forall db: Db | Stage(db, CLOSE, 3) ensures MeetsAt(db.rows + [Row(Light(2), Some(4), false, false, 3)], 5, 3) {
      LastMeets(db);
    }
    EndsWins(FOUR_IN + [InsertCall(Light(1), 9)], CLOSE, 3, Light(2), 4, Told(Light(2), Some(4), 3));
  }

  // ── The store before the push ────────────────────────────────────────────

  ghost predicate TakenRows(t: seq<Row>) {
    |t| == 6 && forall i :: 0 <= i < 6 ==>
      t[i].active && t[i].h == TAKEN[i].h && t[i].work == TAKEN[i].work && t[i].link == TAKEN[i].link
  }

  lemma {:induction false} TakenActive(db: Db)
    requires Stage(db, TAKEN, 5)
    ensures TakenRows(db.rows)
  {
    StageFacts(db, TAKEN, 5);
    TellsRows(db, TAKEN, 5);
    forall i: nat | i < 6 ensures db.rows[i].active { TakenPath(Heads(db.rows), i); }
    hide Stage, Known, Sound, Inv, Path, Heads, Good;
  }

  lemma {:induction false} TakenWorks(t: seq<Row>)
    requires Sound(Heads(t)) && TakenRows(t)
    ensures WorkLow(OPEN, t)
  {
    hide Sound, Heads, Parent;
    forall i: nat | i < 6 ensures t[i].work <= WorkBelow(t, i) + OPEN.work(t[i].h.bits) {
      if i != 0 {
        var q := if i == 5 then 4 else if i == 4 then 1 else if i == 1 then 2 else if i == 2 then 3 else 0;
        HeadAt(t, i);
        HeadAt(t, q);
        ParentIs(Heads(t), i, q);
      }
    }
  }

  lemma {:induction false} TakenTop(t: seq<Row>)
    requires TakenRows(t) && ChainTip(t) == Some(5)
    ensures TopLinked(t)
  {
    hide ChainTip;
    assert LinkedBelow(t, 5, None);
  }

  /** The heavy header pushed: no rival, no rule broken, active already, and its
      row the one to link. */
  lemma {:induction false} HeavyFinds(t: seq<Row>)
    requires TakenRows(t) && Sound(Heads(t)) && ChainTip(t) == Some(5) && Find(Heads(t), HEAVY.prev) == Some(3)
    ensures !Competes(t, [HEAVY]) && AllActive(t, [HEAVY]) && StandsOnStored(t, [HEAVY])
    ensures !NewLinksUnder(t, 2, 3, t[5].work) && Accumulates(OPEN, t, [HEAVY])
  {
    hide Find, Heads, ChainTip, JudgeRun, Sound;
    assert t[2].active && t[2].h == HEAVY && t[2].h.prev == HEAVY.prev;
    assert GetsLink(t, 2, 2, 3);
    assert [HEAVY][0] == HEAVY && [HEAVY][1..] == [];
    assert SumsMeet(OPEN, t, 5, [], RunWork(t, [HEAVY]) + OPEN.work(HEAVY.bits));
  }

  lemma {:induction false} HeavyJudged(t: seq<Row>)
    requires TakenRows(t) && Sound(Heads(t)) && Find(Heads(t), HEAVY.prev) == Some(3)
    ensures JudgeRun(OPEN, t, [HEAVY]).None? && [HEAVY] != [] && AllIn(All(), [HEAVY])
  {
    assert t[3].h.height == 1 && [HEAVY][0] == HEAVY && Known(HEAVY);
    hide Find, Heads, Sound, JudgeRun;
    OpenRun(t, [HEAVY], 3);
  }

  lemma {:induction false} HeavyFound(db: Db)
    requires Stage(db, TAKEN, 5)
    ensures Find(Heads(db.rows), HEAVY.prev) == Some(3)
  {
    hide *;
    TakenLow();
    ToldHash(db, TAKEN, 5, 3);
  }

  lemma {:induction false} HeavyEnds()
    ensures [HEAVY][0].height == 2 && [HEAVY][|[HEAVY]| - 1].height + 1 == 3 && [HEAVY] != []
  {
  }

  /** From an empty store, six inserts that all run through; then a push of a header
      that is active already. It accumulates and is served, and the row it links has
      more work than the tip. */
  lemma {:induction false} PushLinksAHeavierRow()
    ensures Inv(All(), OPEN, EMPTY) && AllRunThrough(All(), OPEN, EMPTY, FILLS)
    ensures Inv(All(), OPEN, Replay(All(), OPEN, EMPTY, FILLS))
    ensures var db := Replay(All(), OPEN, EMPTY, FILLS);
            && Allowed(All(), db, PushCall([HEAVY])) && Sound(Heads(db.rows)) && Accumulates(OPEN, db.rows, [HEAVY])
            && WorkLow(OPEN, db.rows) && TopLinked(db.rows)
            && Agree(All()) && AllIn(All(), [HEAVY]) && AllIn(All(), Heads(db.rows))
            && IngestPushed(All(), OPEN, db, [HEAVY]).1 == Some(Served)
            && !TopLinked(IngestPushed(All(), OPEN, db, [HEAVY]).0.rows)
  {
    hide *;
    EndsTaken();
    EndsParts(FILLS, TAKEN, 5);
    var db := Replay(All(), OPEN, EMPTY, FILLS);
    StageKnows(db, TAKEN, 5);
    StageFacts(db, TAKEN, 5);
    TakenActive(db);
    TakenWorks(db.rows);
    TakenTop(db.rows);
    HeavyFound(db);
    HeavyFinds(db.rows);
    HeavyJudged(db.rows);
    HeavyEnds();
    HeavyAllowed(db);
    PushBulkTop(All(), OPEN, db, 5, [HEAVY]);
  }

  lemma {:induction false} HeavyAllowed(db: Db)
    requires AllIn(All(), [HEAVY]) && StandsOnStored(db.rows, [HEAVY])
    ensures Allowed(All(), db, PushCall([HEAVY]))
  {
    hide AllIn, StandsOnStored;
  }
}
