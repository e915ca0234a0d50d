/** The push as its caller makes it, on any sound store: a run that is not
    refused is stored whole, so its verdict and its activation mean what
    `Push.VerdictExact` and `Push.ActivationMends` say (src/storage.rs:1480-1597). */
module PushStored {
  import opened Wrappers
  import opened Headers
  import opened HeaderTable
  import opened Live
  import opened Bulk
  import opened Growth
  import opened Push
  import opened PushClean

  /** A store on the way through a run: sound, known, and what was stored is
      there still, followed by headers of the run. */
  ghost predicate Held(all: iset<Header>, a: seq<Header>, b: seq<Header>, run: seq<Header>) {
    && Sound(b) && AllIn(all, b) && HeadsGrow(a, b)
    && forall i :: |a| <= i < |b| ==> b[i] in run
  }

  lemma {:induction false} HeldSame(all: iset<Header>, a: seq<Header>, run: seq<Header>)
    requires Sound(a) && AllIn(all, a)
    ensures Held(all, a, a, run)
  {
    hide Sound;
  }

  /** One header more, and then the rest of the run. */
  lemma {:induction false} HeldNext(all: iset<Header>, a: seq<Header>, b: seq<Header>, c: seq<Header>, run: seq<Header>)
    requires run != [] && (b == a || b == a + [run[0]]) && Held(all, b, c, run[1..])
    ensures Held(all, a, c, run) && (run[0] in b ==> run[0] in c)
  {
    hide Sound, AllIn;
    forall i | |a| <= i < |c| ensures c[i] in run {
      if i < |b| { assert c[i] == b[i]; } else { assert c[i] in run[1..]; }
    }
    forall i | 0 <= i < |a| ensures c[i] == a[i] { assert c[i] == b[i]; }
    if run[0] in b {
      var n :| 0 <= n < |b| && b[n] == run[0];
      assert c[n] == b[n];
    }
  }

  // ── The bulk path ────────────────────────────────────────────────────────

  lemma {:induction false} PlaceHas(t: seq<Row>, h: Header, work: nat)
    requires Find(Heads(t), h.hash).Some? ==> Heads(t)[Find(Heads(t), h.hash).value] == h
    requires var hs := Heads(Place(t, h, work)); hs == Heads(t) || hs == Heads(t) + [h]
    ensures h in Heads(Place(t, h, work))
  {
    hide Heads;
    var hs := Heads(Place(t, h, work));
    match Find(Heads(t), h.hash) {
      case Some(i) => assert hs[i] == Heads(t)[i];
      case None =>
        assert |hs| == |t| + 1;
        assert hs[|t|] == h;
    }
  }

  lemma {:induction false} OneMoreKnown(all: iset<Header>, a: seq<Header>, b: seq<Header>, h: Header)
    requires AllIn(all, a) && h in all && (b == a || b == a + [h])
    ensures AllIn(all, b)
  {
  }

  lemma {:induction false} PlaceHolds(all: iset<Header>, t: seq<Row>, h: Header, work: nat)
    requires Agree(all) && h in all && AllIn(all, Heads(t)) && Sound(Heads(t))
    ensures var hs := Heads(Place(t, h, work));
            Sound(hs) && AllIn(all, hs) && h in hs && (hs == Heads(t) || hs == Heads(t) + [h])
  {
    hide *;
    AgreeAdmits(all, Heads(t), h);
    PlaceSound(t, h, work);
    OneMoreKnown(all, Heads(t), Heads(Place(t, h, work)), h);
    PlaceHas(t, h, work);
  }

  lemma {:induction false} PlaceRunNone(p: Params, t: seq<Row>, work: nat)
    ensures PlaceRun(p, t, [], work) == t
  {
  }

  lemma {:induction false} NoneHeld(hs: seq<Header>)
    ensures AllHeld(hs, [])
  {
  }

  lemma {:induction false} PlaceRunHolds(all: iset<Header>, p: Params, t: seq<Row>, run: seq<Header>, work: nat)
    requires Agree(all) && AllIn(all, run) && AllIn(all, Heads(t)) && Sound(Heads(t))
    ensures Held(all, Heads(t), Heads(PlaceRun(p, t, run, work)), run)
    ensures AllHeld(Heads(PlaceRun(p, t, run, work)), run)
    decreases |run|
  {
    hide *;
    if run == [] {
      PlaceRunNone(p, t, work);
      HeldSame(all, Heads(t), run);
      NoneHeld(Heads(t));
    } else {
      RestIn(all, run);
      var w := work + p.work(run[0].bits);
      PlaceRunNext(p, t, run, work);
      PlaceHolds(all, t, run[0], w);
      PlaceRunHolds(all, p, Place(t, run[0], w), run[1..], w);
      HeldNext(all, Heads(t), Heads(Place(t, run[0], w)), Heads(PlaceRun(p, t, run, work)), run);
      HeldCons(Heads(PlaceRun(p, t, run, work)), run);
    }
  }

  // ── One header at a time ─────────────────────────────────────────────────

  lemma {:induction false} EachNext(all: iset<Header>, p: Params, db: Db, run: seq<Header>)
    requires Agree(all) && AllIn(all, run) && AllIn(all, Heads(db.rows)) && Sound(Heads(db.rows)) && run != []
    ensures Admissible(Heads(db.rows), run[0]) && AllIn(all, run[1..])
    ensures var out := InsertHeader(p, db, run[0]);
            var db1 := RunAll(db, out.txs);
            && Sound(Heads(db1.rows)) && AllIn(all, Heads(db1.rows)) && (!Failed(out.result) ==> run[0] in Heads(db1.rows))
            && (Heads(db1.rows) == Heads(db.rows) || Heads(db1.rows) == Heads(db.rows) + [run[0]])
            && InsertEach(all, p, db, run) ==
                 if Failed(out.result) then (db1, out.result) else InsertEach(all, p, db1, run[1..])
  {
    AgreeAdmits(all, Heads(db.rows), run[0]);
    hide Sound, RunAll, InsertHeader, Fits, Admissible, Heads;
    InsertGrows(all, p, db, run[0]);
    InsertHeads(p, db, run[0]);
  }

  lemma {:induction false} EachHolds(all: iset<Header>, p: Params, db: Db, run: seq<Header>)
    requires Agree(all) && AllIn(all, run) && AllIn(all, Heads(db.rows)) && Sound(Heads(db.rows))
    ensures var (after, result) := InsertEach(all, p, db, run);
            && Held(all, Heads(db.rows), Heads(after.rows), run)
            && (!Failed(result) ==> AllHeld(Heads(after.rows), run))
    decreases |run|
  {
    if run == [] {
      HeldSame(all, Heads(db.rows), run);
    } else {
      hide *;
      EachNext(all, p, db, run);
      var out := InsertHeader(p, db, run[0]);
      var db1 := RunAll(db, out.txs);
      if Failed(out.result) {
        HeldSame(all, Heads(db1.rows), run[1..]);
        HeldNext(all, Heads(db.rows), Heads(db1.rows), Heads(db1.rows), run);
      } else {
        EachHolds(all, p, db1, run[1..]);
        var after := InsertEach(all, p, db1, run[1..]).0;
        HeldNext(all, Heads(db.rows), Heads(db1.rows), Heads(after.rows), run);
        if !Failed(InsertEach(all, p, db1, run[1..]).1) { HeldCons(Heads(after.rows), run); }
      }
    }
  }

  /** The header inserted on `a` answers `out` and leaves `b`. */
  ghost predicate InsertedTo(p: Params, a: Db, h: Header, out: Outcome, b: Db) {
    && Sound(Heads(a.rows)) && Admissible(Heads(a.rows), h)
    && InsertHeader(p, a, h) == out && RunAll(a, out.txs) == b
  }

  ghost predicate GoesIn(p: Params, a: Db, h: Header, b: Db) {
    exists out: Outcome :: InsertedTo(p, a, h, out, b) && !Failed(out.result)
  }

  ghost predicate FailsWith(p: Params, a: Db, h: Header, b: Db, result: Result) {
    exists out: Outcome :: InsertedTo(p, a, h, out, b) && Failed(out.result) && result == out.result
  }

  /** The stores on the way through the headers of a run, none of them failing. */
  ghost predicate Through(p: Params, dbs: seq<Db>, run: seq<Header>) {
    |dbs| <= |run| + 1 && forall i: nat :: i + 1 < |dbs| ==> GoesIn(p, dbs[i], run[i], dbs[i + 1])
  }

  /** How a run inserted one by one ends: all of it is in, or the first header that
      fails is the last one tried and its answer is the answer. */
  ghost predicate EndsAt(p: Params, dbs: seq<Db>, run: seq<Header>, after: Db, result: Result) {
    dbs != [] && Through(p, dbs, run)
    && if |dbs| == |run| + 1 then after == dbs[|run|] && result == Added(false, 0)
       else FailsWith(p, dbs[|dbs| - 1], run[|dbs| - 1], after, result)
  }

  lemma {:induction false} ThroughOn(p: Params, db: Db, run: seq<Header>, next: Db, dbs: seq<Db>, after: Db, result: Result)
    requires run != [] && GoesIn(p, db, run[0], next)
    requires EndsAt(p, dbs, run[1..], after, result) && dbs[0] == next
    ensures EndsAt(p, [db] + dbs, run, after, result)
  {
    hide GoesIn, FailsWith;
    var all := [db] + dbs;
    forall i: nat | i + 1 < |all| ensures GoesIn(p, all[i], run[i], all[i + 1]) {
      if 0 < i {
        assert dbs[i - 1] == all[i] && dbs[(i - 1) + 1] == all[i + 1] && run[1..][i - 1] == run[i];
      }
    }
    if |all| < |run| + 1 {
      assert all[|all| - 1] == dbs[|dbs| - 1] && run[|all| - 1] == run[1..][|dbs| - 1];
    }
  }

  lemma {:induction false} FirstEnds(p: Params, db: Db, run: seq<Header>, out: Outcome, next: Db)
    requires run != [] && InsertedTo(p, db, run[0], out, next)
    ensures Failed(out.result) ==> EndsAt(p, [db], run, next, out.result)
    ensures !Failed(out.result) ==> GoesIn(p, db, run[0], next)
  {
    hide InsertedTo;
  }

  lemma {:induction false} EndsEmpty(p: Params, db: Db)
    ensures EndsAt(p, [db], [], db, Added(false, 0))
  {
  }

  /** A run through the live writer is inserted header by header, each on the store
      the one before left, up to the first that fails. */
  lemma {:induction false} EachEnds(all: iset<Header>, p: Params, db: Db, run: seq<Header>) returns (dbs: seq<Db>)
    requires Agree(all) && AllIn(all, run) && AllIn(all, Heads(db.rows)) && Sound(Heads(db.rows))
    ensures dbs != [] && dbs[0] == db
    ensures EndsAt(p, dbs, run, InsertEach(all, p, db, run).0, InsertEach(all, p, db, run).1)
    decreases |run|
  {
    dbs := [db];
    if run == [] {
      EndsEmpty(p, db);
    } else {
      EachNext(all, p, db, run);
      var out := InsertHeader(p, db, run[0]);
      var next := RunAll(db, out.txs);
      assert InsertedTo(p, db, run[0], out, next);
      hide *;
      FirstEnds(p, db, run, out, next);
      if !Failed(out.result) {
        var rest := EachEnds(all, p, next, run[1..]);
        ThroughOn(p, db, run, next, rest, InsertEach(all, p, db, run).0, InsertEach(all, p, db, run).1);
        dbs := [db] + rest;
      }
    }
  }

  // ── The push ─────────────────────────────────────────────────────────────

  /** The answers of a push, by path. */
  lemma {:induction false} BatchCases(all: iset<Header>, p: Params, db: Db, run: seq<Header>)
    requires Agree(all) && AllIn(all, run) && AllIn(all, Heads(db.rows)) && Sound(Heads(db.rows)) && run != []
    ensures var (mid, result) := InsertHeadersBatch(all, p, db, run);
            || (Failed(result) && mid == db && JudgeRun(p, db.rows, run).Some?)
            || (JudgeRun(p, db.rows, run).None? && (mid, result) == InsertEach(all, p, db, run))
            || (JudgeRun(p, db.rows, run).None? && mid == InsertBulk(p, db, run) && result == Added(false, 0))
  {
    hide Sound, JudgeRun, Competes, InsertEach, BulkStmts, Run, Heads, Agree, AllIn;
  }

  /** Row `i` is active at the height of a header of the run and is not it. */
  ghost predicate Contests(t: seq<Row>, run: seq<Header>, i: nat) {
    i < |t| && t[i].active && exists j :: 0 <= j < |run| && run[j].height == t[i].h.height && run[j].hash != t[i].h.hash
  }

  /** The run follows a row off the active chain, or starts at or below the tip's
      height and an active row contests it. */
  ghost predicate GoesLive(t: seq<Row>, run: seq<Header>)
    requires run != []
  {
    || (exists q :: 0 <= q < |t| && t[q].h.hash == run[0].prev && !t[q].active)
    || (ChainTip(t).Some? && run[0].height <= t[ChainTip(t).value].h.height && exists i: nat :: Contests(t, run, i))
  }

  lemma {:induction false} CompetesExact(t: seq<Row>, run: seq<Header>)
    requires Sound(Heads(t)) && run != []
    ensures Competes(t, run) <==> GoesLive(t, run)
  {
    hide Sound, ChainTip;
    if q :| 0 <= q < |t| && t[q].h.hash == run[0].prev && !t[q].active {
      HeadAt(t, q);
      FindIs(Heads(t), q, run[0].prev);
    }
    if i: nat :| Contests(t, run, i) {
      var j :| 0 <= j < |run| && run[j].height == t[i].h.height && run[j].hash != t[i].h.hash;
      assert t[i].h.height == run[j].height && t[i].h.hash != run[j].hash;
    }
    if i, j :| 0 <= i < |t| && 0 <= j < |run| && t[i].active && t[i].h.height == run[j].height && t[i].h.hash != run[j].hash {
      assert Contests(t, run, i);
    }
  }

  /** A push the rules let in goes through the live writer, header by header, if and
      only if its parent is stored off the active chain, or it starts at or below
      the tip and an active row contests it; else it is written in bulk. One they
      refuse changes nothing. */
  lemma {:induction false} PathExact(all: iset<Header>, p: Params, db: Db, run: seq<Header>)
    requires Agree(all) && AllIn(all, run) && AllIn(all, Heads(db.rows)) && Sound(Heads(db.rows)) && run != []
    ensures InsertHeadersBatch(all, p, db, run) ==
              if JudgeRun(p, db.rows, run).Some? then (db, Refused(JudgeRun(p, db.rows, run).value))
              else if GoesLive(db.rows, run) then InsertEach(all, p, db, run)
              else (InsertBulk(p, db, run), Added(false, 0))
  {
    CompetesExact(db.rows, run);
    hide Sound, JudgeRun, Competes, GoesLive, InsertEach, BulkStmts, Run, Heads, Agree, AllIn;
  }

  /** A run that is not refused is linked and stored whole. */
  lemma {:induction false} PushHolds(all: iset<Header>, p: Params, db: Db, run: seq<Header>)
    requires Agree(all) && AllIn(all, run) && AllIn(all, Heads(db.rows)) && Sound(Heads(db.rows))
    ensures var (mid, result) := InsertHeadersBatch(all, p, db, run);
            && Held(all, Heads(db.rows), Heads(mid.rows), run)
            && (!Failed(result) ==> Linked(run) && AllStored(mid.rows, run))
  {
    if run == [] {
      HeldSame(all, Heads(db.rows), run);
    } else {
      hide *;
      BatchCases(all, p, db, run);
      var (mid, result) := InsertHeadersBatch(all, p, db, run);
      HeldSame(all, Heads(db.rows), run);
      if JudgeRun(p, db.rows, run).None? {
        JudgedLinked(p, db.rows, run);
        InsertBulkPlaces(all, p, db, run);
        PlaceRunHolds(all, p, db.rows, run, RunWork(db.rows, run));
        EachHolds(all, p, db, run);
        if !Failed(result) { HeadsStored(mid.rows, run); }
      }
    }
  }

  lemma {:induction false} IngestIs(all: iset<Header>, p: Params, db: Db, run: seq<Header>)
    requires Agree(all) && AllIn(all, run) && AllIn(all, Heads(db.rows)) && Sound(Heads(db.rows))
    ensures var (mid, result) := InsertHeadersBatch(all, p, db, run);
            IngestPushed(all, p, db, run) ==
              if Failed(result) then (mid, None)
              else (CanonicalizePushed(mid, run).0, Some(CanonicalizePushed(mid, run).1))
  {
    hide Agree, AllIn, Sound, Heads, InsertHeadersBatch, CanonicalizePushed;
  }

  /** On any sound store a push answers "active" or "activated" exactly when
      every pushed row ends as the only active one at its height; refused or
      stored inactive, the table stays as the insert left it. */
  lemma {:induction false} PushVerdictExact(all: iset<Header>, p: Params, db: Db, run: seq<Header>)
    requires Agree(all) && AllIn(all, run) && AllIn(all, Heads(db.rows)) && Sound(Heads(db.rows))
    ensures var (mid, result) := InsertHeadersBatch(all, p, db, run);
            var (after, verdict) := IngestPushed(all, p, db, run);
            && (verdict.None? <==> Failed(result))
            && (verdict.Some? ==> (verdict.value != StoredInactive <==> AllSole(after.rows, run)))
            && (verdict.None? || verdict.value == StoredInactive ==> after == mid)
  {
    hide *;
    IngestIs(all, p, db, run);
    PushHolds(all, p, db, run);
    var (mid, result) := InsertHeadersBatch(all, p, db, run);
    if !Failed(result) {
      HeldSound(all, Heads(db.rows), Heads(mid.rows), run);
      VerdictExact(mid, run);
    }
  }

  lemma {:induction false} HeldSound(all: iset<Header>, a: seq<Header>, b: seq<Header>, run: seq<Header>)
    requires Held(all, a, b, run)
    ensures Sound(b) && AllIn(all, b)
  {
  }

  lemma {:induction false} NoneBelow(all: iset<Header>, run: seq<Header>, j: nat)
    requires Agree(all) && AllIn(all, run) && Linked(run) && j < |run|
    ensures run[j].hash != run[0].prev
  {
    LinkedHeights(run, j);
    assert run[0] in all && run[j] in all;
  }

  /** The parent of the run is stored after the insert exactly when it was
      before. */
  lemma {:induction false} ParentStill(all: iset<Header>, a: seq<Header>, b: seq<Header>, run: seq<Header>)
    requires Agree(all) && AllIn(all, run) && AllIn(all, a) && run != [] && Linked(run) && Held(all, a, b, run)
    ensures Find(b, run[0].prev).Some? <==> Find(a, run[0].prev).Some?
  {
    if Find(a, run[0].prev).Some? {
      var i := Find(a, run[0].prev).value;
      assert b[i] == a[i];
    }
    if Find(b, run[0].prev).Some? {
      var i := Find(b, run[0].prev).value;
      if i < |a| {
        assert b[i] == a[i];
      } else {
        var j :| 0 <= j < |run| && run[j] == b[i];
        NoneBelow(all, run, j);
      }
    }
  }

  lemma {:induction false} EmptyServed(all: iset<Header>, p: Params, db: Db)
    requires Agree(all) && AllIn(all, []) && AllIn(all, Heads(db.rows)) && Sound(Heads(db.rows))
    ensures IngestPushed(all, p, db, []).1 == Some(Served)
  {
  }

  /** On any sound store whose active rows are one a height once the run is
      inserted, an activating push breaks no link and mends every break from its
      parent up to the child above it if and only if its parent was stored or it
      starts at the genesis height; every row above stays active as it was. */
  lemma {:induction false} PushMends(all: iset<Header>, p: Params, db: Db, run: seq<Header>)
    requires Agree(all) && AllIn(all, run) && AllIn(all, Heads(db.rows)) && Sound(Heads(db.rows))
    requires IngestPushed(all, p, db, run).1 == Some(Activated)
    requires OnePerHeight(InsertHeadersBatch(all, p, db, run).0.rows)
    ensures run != []
    ensures var mid := InsertHeadersBatch(all, p, db, run).0.rows;
            var after := IngestPushed(all, p, db, run).0.rows;
            && (Mended(mid, after, run[0].height, run[|run| - 1].height)
                <==> run[0].height == 0 || Find(Heads(db.rows), run[0].prev).Some?)
            && AboveKept(mid, after, run[|run| - 1].height)
  {
    hide *;
    KnowsNone(all);
    EmptyServed(all, p, db);
    IngestIs(all, p, db, run);
    PushHolds(all, p, db, run);
    var mid := InsertHeadersBatch(all, p, db, run).0;
    HeldSound(all, Heads(db.rows), Heads(mid.rows), run);
    ParentStill(all, Heads(db.rows), Heads(mid.rows), run);
    ActivationMends(mid, run);
  }

  lemma {:induction false} KnowsNone(all: iset<Header>)
    ensures AllIn(all, [])
  {
  }
}
