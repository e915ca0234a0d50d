/** A push that stands on a stored row keeps a clean store clean, whichever path
    it takes; on a clean store the activation is never reached. */
module PushClean {
  import opened Wrappers
  import opened Headers
  import opened HeaderTable
  import opened CleanStore
  import opened Live
  import opened Bulk
  import opened Growth
  import opened Push

  // ── The activation is unreachable on a clean store ───────────────────────

  /** On a clean store the stored parent of an active row is active. */
  lemma {:induction false} ActiveParent(t: seq<Row>, k: nat, c: nat, q: nat)
    requires CleanAt(t, k) && c < |t| && q < |t| && t[c].active && t[c].h.prev == t[q].h.hash
    ensures t[q].active
  {
    ParentIs(Heads(t), c, q);
    PathStep(Heads(t), k, c);
  }

  /** Below an active child the whole run is active. */
  lemma {:induction false} RunBelowActive(t: seq<Row>, k: nat, run: seq<Header>, c: nat, j: nat)
    requires CleanAt(t, k) && AllStored(t, run) && Linked(run) && j < |run|
    requires c < |t| && t[c].active && t[c].h.prev == run[|run| - 1].hash
    ensures exists i :: 0 <= i < |t| && t[i].active && t[i].h == run[j]
    decreases |run| - j
  {
    assert Stored(t, run[j]);
    var i :| 0 <= i < |t| && t[i].h == run[j];
    if j == |run| - 1 {
      ActiveParent(t, k, c, i);
    } else {
      RunBelowActive(t, k, run, c, j + 1);
      var n :| 0 <= n < |t| && t[n].active && t[n].h == run[j + 1];
      ActiveParent(t, k, n, i);
    }
  }

  lemma {:induction false} ActiveIsSole(t: seq<Row>, k: nat, h: Header, i: nat)
    requires CleanAt(t, k) && i < |t| && t[i].active && t[i].h == h
    ensures SoleActive(t, h)
  {
    forall m: nat | ActiveAt(t, m, h.height) ensures t[m].h.hash == h.hash {
      CleanRowsApart(t, k, i, m);
    }
  }

  lemma {:induction false} NeverActivatesOnClean(db: Db, k: nat, run: seq<Header>)
    requires CleanAt(db.rows, k) && Linked(run) && AllStored(db.rows, run)
    ensures CanonicalizePushed(db, run).1 != Activated
  {
    var t := db.rows;
    if run != [] && ChildOf(t, run[|run| - 1]).Some? {
      var c := ChildOf(t, run[|run| - 1]).value;
      forall j | 0 <= j < |run| ensures SoleActive(t, run[j]) {
        RunBelowActive(t, k, run, c, j);
        var i :| 0 <= i < |t| && t[i].active && t[i].h == run[j];
        ActiveIsSole(t, k, run[j], i);
      }
      assert AllSole(t, run);
    }
  }

  // ── The pushed rows linked and the tip set ───────────────────────────────

  lemma {:induction false} GrownSole(p: Params, t: seq<Row>, k: nat, x: nat, run: seq<Header>)
    requires Grown(p, t, k, x) && AllActive(t, run)
    ensures AllSole(t, run)
  {
    hide Sound, Path, Root;
    forall j | 0 <= j < |run| ensures SoleActive(t, run[j]) {
      var i :| 0 <= i < |t| && t[i].active && t[i].h == run[j];
      forall m: nat | ActiveAt(t, m, run[j].height) ensures t[m].h.hash == run[j].hash {
        GrownApart(p, t, k, x, i, m);
      }
    }
  }

  lemma {:induction false} GrownApart(p: Params, t: seq<Row>, k: nat, x: nat, i: nat, j: nat)
    requires Grown(p, t, k, x) && i < |t| && j < |t| && t[i].active && t[j].active
    requires t[i].h.height == t[j].h.height
    ensures i == j
  {
    PathAt(Heads(t), x, i);
    PathAt(Heads(t), x, j);
  }

  lemma {:induction false} LinkSpanKeeps(p: Params, db: Db, k: nat, x: nat, lo: nat, hi: nat)
    requires Grown(p, db.rows, k, x)
    ensures Grown(p, Run(db, [LinkSpan(lo, hi)]).rows, k, x)
  {
    hide Sound, Path, Root, Run;
    var u := Run(db, [LinkSpan(lo, hi)]).rows;
    LinkSpanEffect(db, lo, hi);
    LinkSpanLinks(db, u, lo, hi);
    forall i | 0 <= i < |u| ensures u[i].tip == db.rows[i].tip { }
    assert u[Root(Heads(u), x)].h == db.rows[Root(Heads(u), x)].h;
  }

  lemma {:induction false} LinkSpanLinks(db: Db, u: seq<Row>, lo: nat, hi: nat)
    requires LinksTrue(db.rows) && |u| == |db.rows|
    requires forall i {:trigger u[i]} :: 0 <= i < |db.rows| ==>
               u[i] == if db.rows[i].active && db.rows[i].link.None? && lo <= db.rows[i].h.height <= hi
                       then db.rows[i].(link := Find(Heads(db.rows), db.rows[i].h.prev)) else db.rows[i]
    ensures LinksTrue(u)
  {
    forall i | 0 <= i < |u| && u[i].link.Some?
      ensures u[i].link.value < |u| && u[u[i].link.value].h.hash == u[i].h.prev
    {
      var n := u[i].link.value;
      assert db.rows[i].link.Some? ==> u[i] == db.rows[i];
      assert n < |u| && u[n].h == db.rows[n].h;
    }
  }

  /** The tip moves to the top of a grown store. */
  lemma {:induction false} TipToTop(p: Params, db: Db, k: nat, x: nat)
    requires Grown(p, db.rows, k, x)
    ensures GoodAt(p, TipToHighest(db).rows, x) && LinksTrue(TipToHighest(db).rows)
  {
    var t := db.rows;
    var u := TipToHighest(db).rows;
    TopIsHighest(p, t, k, x);
    hide Sound, Path, Root, TipToHighest;
    TipToHighestEffect(db);
    FlagsKeep(t, u);
    forall i | 0 <= i < |u| ensures u[i].tip <==> i == x { assert u[i] == t[i].(tip := i == x); }
    assert u[Root(Heads(u), x)].h == t[Root(Heads(u), x)].h;
  }

  lemma {:induction false} TopIsHighest(p: Params, t: seq<Row>, k: nat, x: nat)
    requires Grown(p, t, k, x)
    ensures HighestActive(t) == Some(x)
  {
    hide Sound, Root, Path;
    PathSelf(Heads(t), x);
    assert t[x].active;
    var r := HighestActive(t);
    assert r.Some?;
    GrownHeights(p, t, k, x, r.value);
  }

  /** A grown store whose run is active ends clean, its tip the top row. */
  lemma {:induction false} CanonicalizeGrown(p: Params, db: Db, k: nat, x: nat, run: seq<Header>)
    requires Grown(p, db.rows, k, x) && AllActive(db.rows, run) && run != []
    ensures var after := CanonicalizePushed(db, run);
            after.1 == Served && GoodAt(p, after.0.rows, x) && LinksTrue(after.0.rows)
  {
    hide Sound, Path, Root, Run, Grown, AllActive, AllSole, GoodAt, LinksTrue;
    var lo, hi := run[0].height, run[|run| - 1].height + 1;
    GrownSole(p, db.rows, k, x, run);
    LinkSpanKeeps(p, db, k, x, lo, hi);
    TipToTop(p, Run(db, [LinkSpan(lo, hi)]), k, x);
  }

  // ── The table a served push leaves ───────────────────────────────────────

  ghost function LinkIn(t: seq<Row>, i: nat, lo: nat, hi: nat): Option<nat>
    requires i < |t|
  {
    if t[i].active && t[i].link.None? && lo <= t[i].h.height <= hi then Find(Heads(t), t[i].h.prev) else t[i].link
  }

  /** The rows placed, linked over the span and the tip set at `y`. */
  ghost predicate Finished(u: seq<Row>, v: seq<Row>, y: nat, lo: nat, hi: nat) {
    |v| == |u| && forall i {:trigger v[i]} :: 0 <= i < |u| ==> v[i] == u[i].(tip := i == y, link := LinkIn(u, i, lo, hi))
  }

  lemma {:induction false} CanonicalizeFinishes(p: Params, db: Db, k: nat, y: nat, run: seq<Header>)
    requires Grown(p, db.rows, k, y) && AllActive(db.rows, run) && run != []
    ensures var out := CanonicalizePushed(db, run);
            && out.1 == Served && out.0.pending == db.pending
            && Finished(db.rows, out.0.rows, y, run[0].height, run[|run| - 1].height + 1)
            && GoodAt(p, out.0.rows, y) && LinksTrue(out.0.rows)
  {
    var lo, hi := run[0].height, run[|run| - 1].height + 1;
    GrownSound(p, db.rows, k, y);
    hide *;
    GrownSole(p, db.rows, k, y, run);
    CanonicalizeGrown(p, db, k, y, run);
    SpanThenTip(p, db, k, y, lo, hi);
    ServedShape(db, run);
  }

  lemma {:induction false} ServedShape(db: Db, run: seq<Header>)
    requires run != [] && AllSole(db.rows, run)
    ensures CanonicalizePushed(db, run).0 ==
              TipToHighest(Run(db, [LinkSpan(run[0].height, run[|run| - 1].height + 1)]))
  {
    hide AllSole, Run, TipToHighest;
  }

  /** The span linked, then the tip on the top row. */
  lemma {:induction false} SpanThenTip(p: Params, db: Db, k: nat, y: nat, lo: nat, hi: nat)
    requires Grown(p, db.rows, k, y)
    ensures var r := TipToHighest(Run(db, [LinkSpan(lo, hi)]));
            r.pending == db.pending && Finished(db.rows, r.rows, y, lo, hi)
  {
    var d := Run(db, [LinkSpan(lo, hi)]);
    hide Sound, Path, Root, Run, Grown, TipToHighest, Heads;
    LinkSpanEffect(db, lo, hi);
    LinkSpanKeeps(p, db, k, y, lo, hi);
    TopIsHighest(p, d.rows, k, y);
    GrownSound(p, d.rows, k, y);
    TipToHighestEffect(d);
  }

  lemma {:induction false} GrownSound(p: Params, t: seq<Row>, k: nat, y: nat)
    requires Grown(p, t, k, y)
    ensures Sound(Heads(t)) && y < |t| && k < |t|
  {
  }

  lemma {:induction false} FinishedHeads(u: seq<Row>, v: seq<Row>, y: nat, lo: nat, hi: nat)
    requires Finished(u, v, y, lo, hi)
    ensures Heads(v) == Heads(u) && |v| == |u| && forall i :: 0 <= i < |u| ==> v[i].work == u[i].work && v[i].h == u[i].h
  {
    assert forall i :: 0 <= i < |u| ==> v[i].h == u[i].h;
  }

  // ── The live path ────────────────────────────────────────────────────────

  lemma {:induction false} AllGoodLast(p: Params, db: Db, txs: seq<seq<Stmt>>)
    requires AllGood(p, db, txs)
    ensures Good(p, RunAll(db, txs).rows)
    decreases |txs|
  {
    if txs != [] {
      AllGoodLast(p, Run(db, txs[0]), txs[1..]);
    }
  }

  /** A call that did not fail leaves the header stored. */
  lemma {:induction false} InsertStores(p: Params, db: Db, h: Header)
    requires Sound(Heads(db.rows)) && Admissible(Heads(db.rows), h)
    requires !Failed(InsertHeader(p, db, h).result)
    ensures Find(Heads(db.rows), h.hash).Some? ||
            Heads(RunAll(db, InsertHeader(p, db, h).txs).rows) == Heads(db.rows) + [h]
  {
    hide *;
    if Find(Heads(db.rows), h.hash).None? {
      InsertStoresTx(p, db, h);
    }
  }

  lemma {:induction false} InsertStoresTx(p: Params, db: Db, h: Header)
    requires Sound(Heads(db.rows)) && Admissible(Heads(db.rows), h) && Find(Heads(db.rows), h.hash).None?
    requires !Failed(InsertHeader(p, db, h).result)
    ensures Heads(RunAll(db, InsertHeader(p, db, h).txs).rows) == Heads(db.rows) + [h]
  {
    hide Sound, Run, ReorgTo, RunAll, Judge, Fits, Admissible, Path;
    var t := db.rows;
    var row := NewRow(p, t, h, false);
    InsertedFits(db, row);
    var db1 := Run(db, [Insert(row)]);
    assert Heads(db1.rows) == Heads(t) + [h];
    RunAllOne(db, [Insert(row)]);
    ExtensionHeads(db, NewRow(p, t, h, true));
    RunAllOne(db, Extension(NewRow(p, t, h, true)));
    if ChainTip(t).Some? {
      ReorgToHeads(db1, |t|, ChainTip(t).value);
      RunAllCons(db, [Insert(row)], ReorgTo(db1, |t|, ChainTip(t).value).txs);
    }
  }

  /** Stored stays stored. */
  ghost predicate HeadsGrow(a: seq<Header>, b: seq<Header>) {
    |a| <= |b| && forall i {:trigger b[i]} :: 0 <= i < |a| ==> b[i] == a[i]
  }

  /** A store on the way through a run: good, its headers known, none lost. */
  ghost predicate Carried(all: iset<Header>, p: Params, a: Db, b: Db) {
    Good(p, b.rows) && AllIn(all, Heads(b.rows)) && HeadsGrow(Heads(a.rows), Heads(b.rows))
  }

  lemma {:induction false} CarriedGood(all: iset<Header>, p: Params, a: Db, b: Db)
    requires Carried(all, p, a, b)
    ensures Good(p, b.rows) && Sound(Heads(b.rows)) && AllIn(all, Heads(b.rows))
  {
  }

  lemma {:induction false} CarriedOn(all: iset<Header>, p: Params, a: Db, b: Db, c: Db, h: Header)
    requires Carried(all, p, a, b) && Carried(all, p, b, c)
    ensures Carried(all, p, a, c)
    ensures h in Heads(b.rows) ==> h in Heads(c.rows)
  {
    hide Good, Heads;
    var hb, hc := Heads(b.rows), Heads(c.rows);
    if h in hb {
      var i :| 0 <= i < |hb| && hb[i] == h;
      assert hc[i] == h;
    }
  }

  lemma {:induction false} InsertGrows(all: iset<Header>, p: Params, db: Db, h: Header)
    requires Agree(all) && AllIn(all, Heads(db.rows)) && h in all && Sound(Heads(db.rows))
    ensures Admissible(Heads(db.rows), h)
    ensures var hs := Heads(RunAll(db, InsertHeader(p, db, h).txs).rows);
            && AllIn(all, hs) && HeadsGrow(Heads(db.rows), hs)
            && (!Failed(InsertHeader(p, db, h).result) ==> h in hs)
  {
    AgreeAdmits(all, Heads(db.rows), h);
    hide Sound, RunAll, InsertHeader, Fits, Admissible, Heads;
    InsertHeads(p, db, h);
    var hs := Heads(RunAll(db, InsertHeader(p, db, h).txs).rows);
    if !Failed(InsertHeader(p, db, h).result) {
      InsertStores(p, db, h);
      assert hs == Heads(db.rows) + [h] ==> hs[|hs| - 1] == h;
    }
  }

  lemma {:induction false} InsertOnce(all: iset<Header>, p: Params, db: Db, h: Header)
    requires Agree(all) && AllIn(all, Heads(db.rows)) && h in all && Good(p, db.rows) && p.Ascending()
    ensures Sound(Heads(db.rows)) && Admissible(Heads(db.rows), h)
    ensures var out := InsertHeader(p, db, h);
            var db1 := RunAll(db, out.txs);
            Carried(all, p, db, db1) && (!Failed(out.result) ==> h in Heads(db1.rows))
  {
    hide Sound, RunAll, InsertHeader, Fits, Admissible, AllGood, GoodAt, Heads, AllIn, HeadsGrow, Agree;
    InsertGrows(all, p, db, h);
    InsertKeepsClean(p, db, h);
    AllGoodLast(p, db, InsertHeader(p, db, h).txs);
  }

  lemma {:induction false} EachStep(all: iset<Header>, p: Params, db: Db, run: seq<Header>)
    requires Agree(all) && AllIn(all, run) && AllIn(all, Heads(db.rows)) && Good(p, db.rows) && p.Ascending()
    requires run != []
    ensures Sound(Heads(db.rows)) && Admissible(Heads(db.rows), run[0])
    ensures var out := InsertHeader(p, db, run[0]);
            var db1 := RunAll(db, out.txs);
            && Carried(all, p, db, db1) && (!Failed(out.result) ==> run[0] in Heads(db1.rows))
            && AllIn(all, run[1..]) && AllIn(all, Heads(db1.rows)) && Sound(Heads(db1.rows)) && Good(p, db1.rows)
            && InsertEach(all, p, db, run) ==
                 if Failed(out.result) then (db1, out.result) else InsertEach(all, p, db1, run[1..])
  {
    hide Sound, RunAll, InsertHeader, Fits, Admissible, GoodAt, Heads;
    InsertOnce(all, p, db, run[0]);
  }

  /** Every header of the run is stored. */
  ghost predicate AllHeld(hs: seq<Header>, run: seq<Header>) {
    forall j :: 0 <= j < |run| ==> run[j] in hs
  }

  lemma {:induction false} HeldCons(hs: seq<Header>, run: seq<Header>)
    requires run != [] && run[0] in hs && AllHeld(hs, run[1..])
    ensures AllHeld(hs, run)
  {
    assert forall j :: 1 <= j < |run| ==> run[j] == run[1..][j - 1];
  }

  lemma {:induction false} EachEmpty(all: iset<Header>, p: Params, db: Db)
    requires Agree(all) && AllIn(all, Heads(db.rows)) && Good(p, db.rows) && AllIn(all, []) && Sound(Heads(db.rows))
    ensures InsertEach(all, p, db, []) == (db, Added(false, 0)) && Carried(all, p, db, db) && AllHeld(Heads(db.rows), [])
  {
  }

  lemma {:induction false} EachKeepsClean(all: iset<Header>, p: Params, db: Db, run: seq<Header>)
    requires Agree(all) && AllIn(all, run) && AllIn(all, Heads(db.rows)) && Good(p, db.rows) && p.Ascending()
    requires Sound(Heads(db.rows))
    ensures var (after, result) := InsertEach(all, p, db, run);
            Carried(all, p, db, after) && (!Failed(result) ==> AllHeld(Heads(after.rows), run))
    decreases |run|
  {
    hide *;
    if run == [] {
      EachEmpty(all, p, db);
    } else {
      EachStep(all, p, db, run);
      var out := InsertHeader(p, db, run[0]);
      var db1 := RunAll(db, out.txs);
      if !Failed(out.result) {
        EachKeepsClean(all, p, db1, run[1..]);
        var after := InsertEach(all, p, db1, run[1..]);
        CarriedOn(all, p, db, db1, after.0, run[0]);
        if !Failed(after.1) { HeldCons(Heads(after.0.rows), run); }
      }
    }
  }

  /** The push on a store the live path left good. */
  lemma {:induction false} CanonicalizeGood(p: Params, db: Db, run: seq<Header>)
    requires Good(p, db.rows) && Linked(run) && AllStored(db.rows, run)
    ensures Good(p, CanonicalizePushed(db, run).0.rows)
  {
    if run == [] {
      CanonicalizeNone(db);
    } else {
      assert Stored(db.rows, run[0]);
      var k: nat :| GoodAt(p, db.rows, k);
      CanonicalizeGoodAt(p, db, k, run);
    }
  }

  lemma {:induction false} CanonicalizeGoodAt(p: Params, db: Db, k: nat, run: seq<Header>)
    requires Good(p, db.rows) && GoodAt(p, db.rows, k) && Linked(run) && AllStored(db.rows, run) && run != []
    ensures Good(p, CanonicalizePushed(db, run).0.rows)
  {
    if AllSole(db.rows, run) {
      GoodIsGrown(p, db.rows, k);
      AllSoleActive(db.rows, run);
      hide *;
      CanonicalizeGrown(p, db, k, k, run);
      GoodFrom(p, CanonicalizePushed(db, run).0.rows, k);
    } else {
      NeverActivatesOnClean(db, k, run);
      hide Good, AllSole;
    }
  }

  lemma {:induction false} AllSoleActive(t: seq<Row>, run: seq<Header>)
    requires AllSole(t, run)
    ensures AllActive(t, run)
  {
  }

  lemma {:induction false} GoodFrom(p: Params, t: seq<Row>, k: nat)
    requires GoodAt(p, t, k) && LinksTrue(t)
    ensures Good(p, t)
  {
  }

  // ── The bulk path ────────────────────────────────────────────────────────

  /** A linked run of known headers repeats none. */
  lemma {:induction false} LinkedDistinct(all: iset<Header>, run: seq<Header>)
    requires Agree(all) && AllIn(all, run) && Linked(run)
    ensures Distinct(run)
  {
    forall i, j | 0 <= i < j < |run| ensures run[i].hash != run[j].hash {
      LinkedHeights(run, i);
      LinkedHeights(run, j);
      assert run[i] in all && run[j] in all;
    }
  }

  /** The parent the run stands on is stored. */
  ghost predicate StandsOnStored(t: seq<Row>, run: seq<Header>) {
    run != [] ==> Find(Heads(t), run[0].prev).Some?
  }

  /** A run that passes, replaces nothing and stands on the active chain. */
  lemma {:induction false} BulkGrows(all: iset<Header>, p: Params, db: Db, k: nat, run: seq<Header>) returns (x: nat)
    requires Agree(all) && AllIn(all, run) && AllIn(all, Heads(db.rows))
    requires GoodAt(p, db.rows, k) && LinksTrue(db.rows) && run != [] && StandsOnStored(db.rows, run)
    requires Linked(run) && !Competes(db.rows, run)
    ensures var after := InsertBulk(p, db, run);
            Grown(p, after.rows, k, x) && AllActive(after.rows, run)
  {
    hide Sound, Path, Root, Run, PlaceRun, GoodAt, Heads;
    var t := db.rows;
    LinkedDistinct(all, run);
    RunOnChain(all, p, t, k, run);
    BulkPlaces(all, p, t, db, run, RunWork(t, run));
    GoodIsGrown(p, t, k);
    x := GrowRun(all, p, t, k, k, run, RunWork(t, run));
  }

  ghost function InsertBulk(p: Params, db: Db, run: seq<Header>): Db
    requires run != []
  {
    Run(db, BulkStmts(p, db.rows, run, RunWork(db.rows, run)))
  }

  lemma {:induction false} RunOnChain(all: iset<Header>, p: Params, t: seq<Row>, k: nat, run: seq<Header>)
    requires Agree(all) && AllIn(all, run) && AllIn(all, Heads(t))
    requires GoodAt(p, t, k) && run != [] && StandsOnStored(t, run)
    requires Linked(run) && !Competes(t, run)
    ensures StandsOn(t, k, run) && Sound(Heads(t))
  {
    hide Sound, Path, Root;
    var q := Find(Heads(t), run[0].prev).value;
    CleanTip(t, k);
    assert t[q].active;
    forall i, j | 0 <= i < |t| && 0 <= j < |run| && t[i].active && t[i].h.height == run[j].height
      ensures t[i].h.hash == run[j].hash
    {
      LinkedHeights(run, j);
      CleanRow(t, k, i);
    }
    RunStands(all, t, k, q, run);
  }

  lemma {:induction false} JudgedLinked(p: Params, t: seq<Row>, run: seq<Header>)
    requires Sound(Heads(t)) && run != [] && JudgeRun(p, t, run).None?
    ensures Linked(run)
  {
  }

  lemma {:induction false} InsertBulkPlaces(all: iset<Header>, p: Params, db: Db, run: seq<Header>)
    requires Agree(all) && AllIn(all, run) && AllIn(all, Heads(db.rows)) && Sound(Heads(db.rows))
    requires run != [] && Linked(run)
    ensures InsertBulk(p, db, run) == db.(rows := PlaceRun(p, db.rows, run, RunWork(db.rows, run)))
  {
    hide Sound, Run, PlaceRun, Heads, Agree;
    LinkedDistinct(all, run);
    BulkPlaces(all, p, db.rows, db, run, RunWork(db.rows, run));
  }

  lemma {:induction false} IngestBulk(all: iset<Header>, p: Params, db: Db, run: seq<Header>)
    requires Agree(all) && AllIn(all, run) && AllIn(all, Heads(db.rows)) && Sound(Heads(db.rows))
    requires run != [] && JudgeRun(p, db.rows, run).None? && !Competes(db.rows, run)
    ensures var out := CanonicalizePushed(InsertBulk(p, db, run), run);
            IngestPushed(all, p, db, run) == (out.0, Some(out.1))
  {
    hide Sound, Run, JudgeRun, Competes, CanonicalizePushed, BulkStmts, Heads, Agree;
  }

  // ── The push ─────────────────────────────────────────────────────────────

  /** A push on a clean store, standing on a stored row, leaves it clean. */
  lemma {:induction false} PushKeepsClean(all: iset<Header>, p: Params, db: Db, run: seq<Header>)
    requires Agree(all) && AllIn(all, run) && AllIn(all, Heads(db.rows)) && Good(p, db.rows) && p.Ascending()
    requires StandsOnStored(db.rows, run)
    ensures Good(p, IngestPushed(all, p, db, run).0.rows)
  {
    hide Sound, GoodAt, Heads, JudgeRun, Competes, InsertEach, CanonicalizePushed, BulkStmts, Run;
    if run != [] && JudgeRun(p, db.rows, run).None? {
      JudgedLinked(p, db.rows, run);
      if Competes(db.rows, run) {
        PushLive(all, p, db, run);
      } else {
        PushBulk(all, p, db, run);
      }
    } else {
      CanonicalizeNone(db);
    }
  }

  lemma {:induction false} CanonicalizeNone(db: Db)
    ensures CanonicalizePushed(db, []) == (db, Served)
  {
  }

  lemma {:induction false} PushLive(all: iset<Header>, p: Params, db: Db, run: seq<Header>)
    requires Agree(all) && AllIn(all, run) && AllIn(all, Heads(db.rows)) && Good(p, db.rows) && p.Ascending()
    requires Linked(run)
    ensures var (after, result) := InsertEach(all, p, db, run);
            Good(p, after.rows) && (!Failed(result) ==> Good(p, CanonicalizePushed(after, run).0.rows))
  {
    hide Sound, GoodAt, CanonicalizePushed, InsertEach, Heads;
    EachKeepsClean(all, p, db, run);
    var (after, result) := InsertEach(all, p, db, run);
    if !Failed(result) {
      HeadsStored(after.rows, run);
      CanonicalizeGood(p, after, run);
    }
  }

  lemma {:induction false} HeadsStored(t: seq<Row>, run: seq<Header>)
    requires AllHeld(Heads(t), run)
    ensures AllStored(t, run)
  {
    forall j | 0 <= j < |run| ensures Stored(t, run[j]) {
      assert run[j] in Heads(t);
      var i :| 0 <= i < |Heads(t)| && Heads(t)[i] == run[j];
      assert t[i].h == run[j];
    }
  }

  lemma {:induction false} PushBulk(all: iset<Header>, p: Params, db: Db, run: seq<Header>)
    requires Agree(all) && AllIn(all, run) && AllIn(all, Heads(db.rows)) && Good(p, db.rows)
    requires run != [] && StandsOnStored(db.rows, run) && Linked(run) && !Competes(db.rows, run)
    ensures Good(p, CanonicalizePushed(InsertBulk(p, db, run), run).0.rows)
  {
    assert db.rows != [] by { var q := Find(Heads(db.rows), run[0].prev); assert q.value < |db.rows|; }
    var k: nat :| GoodAt(p, db.rows, k);
    hide Sound, GoodAt, CanonicalizePushed, InsertBulk, Grown, Heads, Competes, Agree, Linked, StandsOnStored;
    var x := BulkGrows(all, p, db, k, run);
    CanonicalizeGrown(p, InsertBulk(p, db, run), k, x, run);
    GoodFrom(p, CanonicalizePushed(InsertBulk(p, db, run), run).0.rows, x);
  }
}
