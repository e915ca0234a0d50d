/** What a push that ran through does to the rule that no row with a parent link
    outworks the tip: it links rows that were stored without one
    (src/storage.rs:1526-1539). */
module MostWorkLinks {
  import opened Wrappers
  import opened Headers
  import opened HeaderTable
  import opened CleanStore
  import opened Live
  import opened Bulk
  import opened Growth
  import opened Push
  import opened PushClean
  import opened MostWork
  import opened MostWorkPush
  import opened MostWorkTop
  import opened Runs

  // ── The rows the span links ──────────────────────────────────────────────

  /** The row gets its parent link when the span is linked. */
  ghost predicate GetsLink(t: seq<Row>, i: nat, lo: nat, hi: nat) {
    && i < |t| && t[i].active && t[i].link.None? && lo <= t[i].h.height <= hi
    && Find(Heads(t), t[i].h.prev).Some?
  }

  ghost predicate NewLinksUnder(t: seq<Row>, lo: nat, hi: nat, work: nat) {
    forall i: nat :: GetsLink(t, i, lo, hi) ==> t[i].work <= work
  }

  /** The table after the span is linked and the tip set on row `y`. */
  lemma {:induction false} FinishedTop(v: seq<Row>, u: seq<Row>, y: nat, lo: nat, hi: nat)
    requires Finished(v, u, y, lo, hi) && CleanAt(u, y) && y < |v|
    ensures TopLinked(u) <==> LinkedBelow(v, y, None) && NewLinksUnder(v, lo, hi, v[y].work)
  {
    TopAt(u, y);
    hide Sound, Path, Heads, CleanAt, TopLinked;
    assert forall i :: 0 <= i < |v| ==> u[i].work == v[i].work && u[i].link == LinkIn(v, i, lo, hi);
    if LinkedBelow(u, y, None) {
      forall i | 0 <= i < |v| && v[i].link.Some? ensures v[i].work <= v[y].work { assert u[i].link.Some?; }
      forall i: nat | GetsLink(v, i, lo, hi) ensures v[i].work <= v[y].work { assert u[i].link.Some?; }
    }
    if LinkedBelow(v, y, None) && NewLinksUnder(v, lo, hi, v[y].work) {
      forall i | 0 <= i < |u| && u[i].link.Some? ensures u[i].work <= u[y].work {
        assert v[i].link.Some? || GetsLink(v, i, lo, hi);
      }
    }
  }

  // ── The bulk path ────────────────────────────────────────────────────────

  /** A run whose headers are active all stands below the tip: the tip stays. */
  lemma {:induction false} AllActiveStays(p: Params, t: seq<Row>, k: nat, run: seq<Header>, v: seq<Row>, y: nat)
    requires GoodAt(p, t, k) && k < |t| && run != [] && BulkDone(p, t, k, run, v, y)
    ensures y == k <==> AllActive(t, run)
  {
    if y != k && AllActive(t, run) {
      assert ActiveRow(t, run[|run| - 1]);
      var i :| 0 <= i < |t| && t[i].active && t[i].h == run[|run| - 1];
      CleanRow(t, k, i);
      AboveTip(p, v, k, y);
      TipKept(t, v, k);
      hide *;
    }
  }

  lemma {:induction false} TipKept(t: seq<Row>, v: seq<Row>, k: nat)
    requires WorkKept(t, v) && k < |t|
    ensures k < |v| && v[k].h == t[k].h
  {
  }

  lemma {:induction false} AboveTip(p: Params, v: seq<Row>, k: nat, y: nat)
    requires Grown(p, v, k, y) && y != k
    ensures k < |v| && y < |v| && v[k].h.height < v[y].h.height
  {
    PathAt(Heads(v), y, k);
    hide Sound, Path, Root;
    GrownHeights(p, v, k, y, k);
  }

  lemma {:induction false} BulkTop(p: Params, db: Db, k: nat, run: seq<Header>, y: nat, u: seq<Row>)
    requires GoodAt(p, db.rows, k) && k < |db.rows| && run != [] && BulkServed(p, db, k, run, y, u) && TopLinked(db.rows)
    ensures TopLinked(u) <==>
              (AllActive(db.rows, run) ==>
                 NewLinksUnder(db.rows, run[0].height, run[|run| - 1].height + 1, db.rows[k].work))
  {
    var t := db.rows;
    var v := InsertBulk(p, db, run).rows;
    var lo, hi := run[0].height, run[|run| - 1].height + 1;
    GoodTop(p, t, k);
    AllActiveStays(p, t, k, run, v, y);
    hide Sound, Path, Root, Grown, AllActive, InsertBulk, TopLinked, WorkKept, Heads, GetsLink;
    FinishedTop(v, u, y, lo, hi);
    if y != k { StackedLinks(t, k, v, y, lo, hi); }
  }

  lemma {:induction false} StackedLinks(t: seq<Row>, k: nat, v: seq<Row>, y: nat, lo: nat, hi: nat)
    requires k < |t| && y < |v| && LinkedBelow(t, k, None) && PlacedUnder(t, v, v[y].work)
    requires t[k].work <= v[y].work && ActiveUnder(t, lo, v[y].work)
    ensures LinkedBelow(v, y, None) && NewLinksUnder(v, lo, hi, v[y].work)
  {
    hide Heads;
    forall i: nat | GetsLink(v, i, lo, hi) ensures v[i].work <= v[y].work {
      assert (i < |t| && v[i] == t[i]) || v[i].work <= v[y].work;
    }
  }

  // ── One header at a time: the rows ───────────────────────────────────────

  /** The rows stay but for their flags, and more may follow. */
  ghost predicate RowsKept(t: seq<Row>, u: seq<Row>) {
    |t| <= |u| && forall i {:trigger u[i]} :: 0 <= i < |t| ==>
      u[i].h == t[i].h && u[i].link == t[i].link && u[i].work == t[i].work
  }

  /** The flags stay, and no further row is active. */
  ghost predicate FlagsStay(t: seq<Row>, u: seq<Row>) {
    && |t| <= |u| && (forall i {:trigger u[i]} :: 0 <= i < |t| ==> u[i].active == t[i].active && u[i].tip == t[i].tip)
    && (forall i {:trigger u[i]} :: |t| <= i < |u| ==> !u[i].active)
  }

  /** A header inserted: its row appended, and either no flag changed or its row
      is the tip of a clean store. */
  ghost predicate Landed(p: Params, t: seq<Row>, row: Row, u: seq<Row>) {
    && |u| == |t| + 1 && RowsKept(t, u)
    && u[|t|].h == row.h && u[|t|].link == row.link && u[|t|].work == row.work
    && (FlagsStay(t, u) || GoodAt(p, u, |t|))
  }

  lemma {:induction false} LandedInactive(p: Params, t: seq<Row>, row: Row)
    requires !row.active && !row.tip
    ensures Landed(p, t, row, t + [row])
  {
    hide GoodAt;
  }

  lemma {:induction false} LandedExtension(p: Params, t: seq<Row>, u: seq<Row>, a: Row, row: Row)
    requires Extended(t, u, a) && GoodAt(p, u, |t|) && a.h == row.h && a.link == row.link && a.work == row.work
    ensures Landed(p, t, row, u)
  {
    hide GoodAt;
  }

  lemma {:induction false} LandedReorg(p: Params, t: seq<Row>, u: seq<Row>, row: Row)
    requires SameButFlags(t + [row], u) && GoodAt(p, u, |t|)
    ensures Landed(p, t, row, u)
  {
    hide GoodAt;
    assert u[|t|].h == (t + [row])[|t|].h;
  }

  lemma {:induction false} SameRowValues(p: Params, t: seq<Row>, h: Header)
    ensures var a, b := NewRow(p, t, h, true), NewRow(p, t, h, false);
            a.h == b.h && a.link == b.link && a.work == b.work && !b.active && !b.tip && b.h == h
  {
  }

  lemma {:induction false} InsertLands(p: Params, db: Db, k: nat, h: Header)
    requires GoodAt(p, db.rows, k) && LinksTrue(db.rows) && k < |db.rows| && p.Ascending()
    requires Sound(Heads(db.rows)) && Admissible(Heads(db.rows), h)
    requires InsertHeader(p, db, h).txs != [] && InsertHeader(p, db, h).result != NoAncestor
    ensures Landed(p, db.rows, NewRow(p, db.rows, h, false), RunAll(db, InsertHeader(p, db, h).txs).rows)
  {
    var t := db.rows;
    hide *;
    InsertShape(p, db, k, h);
    SameRowValues(p, t, h);
    var row := NewRow(p, t, h, false);
    InsertInactiveClean(p, db, k, h);
    if Judge(p, t, h).1 && t[k].work < row.work {
      if h.prev == t[k].h.hash {
        InsertExtensionClean(p, db, k, h);
        RunAllOne(db, Extension(NewRow(p, t, h, true)));
        LandedExtension(p, t, Run(db, Extension(NewRow(p, t, h, true))).rows, NewRow(p, t, h, true), row);
      } else {
        var db1 := Run(db, [Insert(row)]);
        ReorgLands(p, db1, k, |t|);
        RunAllCons(db, [Insert(row)], ReorgTo(db1, |t|, k).txs);
        LandedReorg(p, t, RunAll(db1, ReorgTo(db1, |t|, k).txs).rows, row);
      }
    } else {
      RunAllOne(db, [Insert(row)]);
      LandedInactive(p, t, row);
    }
  }

  // ── One header at a time: the run ────────────────────────────────────────

  /** The work the last header of a run is stored with once each is inserted, over
      `work` below the run: a stored row keeps its work, a new one adds its own to
      that of the header below. */
  function LastWork(p: Params, t: seq<Row>, run: seq<Header>, work: nat): nat
    decreases |run|
  {
    if run == [] then work
    else LastWork(p, t, run[1..], match Find(Heads(t), run[0].hash)
                                  case Some(i) => t[i].work
                                  case None => work + p.work(run[0].bits))
  }

  lemma {:induction false} LastWorkNext(p: Params, t: seq<Row>, run: seq<Header>, work: nat)
    requires run != []
    ensures LastWork(p, t, run, work) ==
            LastWork(p, t, run[1..], match Find(Heads(t), run[0].hash)
                                     case Some(i) => t[i].work
                                     case None => work + p.work(run[0].bits))
    ensures LastWork(p, t, [], work) == work
  {
  }

  /** Rows appended that are not of the run leave it. */
  lemma {:induction false} LastWorkKept(p: Params, t: seq<Row>, u: seq<Row>, h: Header, run: seq<Header>, work: nat)
    requires RowsKept(t, u) && Heads(u) == Heads(t) + [h] && forall j :: 0 <= j < |run| ==> run[j].hash != h.hash
    ensures LastWork(p, u, run, work) == LastWork(p, t, run, work)
    decreases |run|
  {
    if run != [] {
      FindAppend(Heads(t), h, run[0].hash);
      hide Heads;
      var w := match Find(Heads(t), run[0].hash) case Some(i) => t[i].work case None => work + p.work(run[0].bits);
      assert forall j :: 0 <= j < |run[1..]| ==> run[1..][j] == run[j + 1];
      LastWorkKept(p, t, u, h, run[1..], w);
    }
  }

  /** What inserting a run header by header leaves, `work` the work below it. */
  ghost predicate EachDone(p: Params, t: seq<Row>, run: seq<Header>, work: nat, u: seq<Row>) {
    && RowsKept(t, u)
    && (forall i {:trigger u[i]} :: |t| <= i < |u| ==> u[i].link.Some? && u[i].h in run)
    && (run != [] ==> HasWork(u, run[|run| - 1], LastWork(p, t, run, work)))
    && (FlagsStay(t, u) || exists n :: 0 <= n < |u| && GoodAt(p, u, n) && u[n].h in run)
  }

  lemma {:induction false} DoneNone(p: Params, t: seq<Row>, work: nat)
    ensures EachDone(p, t, [], work, t)
  {
    hide GoodAt;
  }

  /** After a header stored already. */
  lemma {:induction false} DoneDupe(p: Params, t: seq<Row>, run: seq<Header>, work: nat, i: nat, u: seq<Row>)
    requires run != [] && i < |t| && t[i].h == run[0] && Find(Heads(t), run[0].hash) == Some(i)
    requires EachDone(p, t, run[1..], t[i].work, u)
    ensures EachDone(p, t, run, work, u)
  {
    LastWorkNext(p, t, run, work);
    LastWorkNext(p, t, run, t[i].work);
    hide LastWork, GoodAt, Heads, FlagsStay;
    assert forall x :: x in run[1..] ==> x in run;
    if |run| == 1 {
      assert run[1..] == [];
      assert u[i].h == run[|run| - 1];
    } else {
      assert run[1..][|run| - 2] == run[|run| - 1];
    }
  }

  lemma {:induction false} DoneRows(t: seq<Row>, run: seq<Header>, v: seq<Row>, u: seq<Row>)
    requires run != [] && |v| == |t| + 1 && RowsKept(t, v) && RowsKept(v, u) && v[|t|].h == run[0] && v[|t|].link.Some?
    requires forall i {:trigger u[i]} :: |v| <= i < |u| ==> u[i].link.Some? && u[i].h in run[1..]
    ensures RowsKept(t, u) && |t| < |u| && u[|t|].h == run[0] && u[|t|].work == v[|t|].work
    ensures forall i {:trigger u[i]} :: |t| <= i < |u| ==> u[i].link.Some? && u[i].h in run
  {
    assert forall x :: x in run[1..] ==> x in run;
    assert u[|t|].link == v[|t|].link;
    assert run[0] in run;
  }

  /** The last header's work, after a header inserted. */
  lemma {:induction false} DoneWork(p: Params, t: seq<Row>, run: seq<Header>, work: nat, w: nat, v: seq<Row>, u: seq<Row>)
    requires run != [] && Find(Heads(t), run[0].hash).None? && RowsKept(t, v) && w == work + p.work(run[0].bits)
    requires Heads(v) == Heads(t) + [run[0]] && forall j :: 0 <= j < |run[1..]| ==> run[1..][j].hash != run[0].hash
    requires HasWork(u, run[0], w) && (run[1..] != [] ==> HasWork(u, run[1..][|run[1..]| - 1], LastWork(p, v, run[1..], w)))
    ensures HasWork(u, run[|run| - 1], LastWork(p, t, run, work))
  {
    LastWorkNext(p, t, run, work);
    LastWorkKept(p, t, v, run[0], run[1..], w);
    hide LastWork, Heads, RowsKept, HasWork;
    if |run| == 1 {
      assert run[1..] == [];
      LastWorkNext(p, t, run, w);
    } else {
      assert run[1..][|run| - 2] == run[|run| - 1];
    }
  }

  lemma {:induction false} DoneParts(p: Params, t: seq<Row>, run: seq<Header>, work: nat, u: seq<Row>)
    requires EachDone(p, t, run, work, u)
    ensures RowsKept(t, u)
    ensures forall i {:trigger u[i]} :: |t| <= i < |u| ==> u[i].link.Some? && u[i].h in run
    ensures run != [] ==> HasWork(u, run[|run| - 1], LastWork(p, t, run, work))
    ensures FlagsStay(t, u) || exists n :: 0 <= n < |u| && GoodAt(p, u, n) && u[n].h in run
  {
    hide RowsKept, HasWork, LastWork, GoodAt, FlagsStay;
  }

  lemma {:induction false} DoneFlags(p: Params, t: seq<Row>, run: seq<Header>, row: Row, v: seq<Row>, u: seq<Row>)
    requires run != [] && Landed(p, t, row, v) && Good(p, u) && |t| < |u| && u[|t|].h == run[0]
    requires FlagsStay(v, u) || exists n :: 0 <= n < |u| && GoodAt(p, u, n) && u[n].h in run[1..]
    ensures FlagsStay(t, u) || exists n :: 0 <= n < |u| && GoodAt(p, u, n) && u[n].h in run
  {
    hide GoodAt, Good, FlagsStay, RowsKept;
    if FlagsStay(v, u) {
      assert run[0] in run;
      FlagsOn(p, t, v, u, run[0], run);
    } else {
      var n :| 0 <= n < |u| && GoodAt(p, u, n) && u[n].h in run[1..];
      assert u[n].h in run;
    }
  }

  /** After a header inserted. */
  lemma {:induction false} DoneNew(p: Params, t: seq<Row>, run: seq<Header>, work: nat, row: Row, v: seq<Row>, u: seq<Row>)
    requires run != [] && Find(Heads(t), run[0].hash).None? && Landed(p, t, row, v) && Good(p, u)
    requires row.h == run[0] && row.link.Some? && row.work == work + p.work(run[0].bits)
    requires Heads(v) == Heads(t) + [run[0]] && forall j :: 0 <= j < |run[1..]| ==> run[1..][j].hash != run[0].hash
    requires EachDone(p, v, run[1..], row.work, u)
    ensures EachDone(p, t, run, work, u)
  {
    hide LastWork, GoodAt, Heads, Good, FlagsStay, RowsKept, EachDone;
    DoneParts(p, v, run[1..], row.work, u);
    DoneRows(t, run, v, u);
    assert HasWork(u, run[0], row.work) by { FirstKept(t, u, run[0], row.work); }
    DoneWork(p, t, run, work, row.work, v, u);
    DoneFlags(p, t, run, row, v, u);
    DoneIs(p, t, run, work, u);
  }

  lemma {:induction false} FirstKept(t: seq<Row>, u: seq<Row>, h: Header, work: nat)
    requires RowsKept(t, u) && |t| < |u| && u[|t|].h == h && u[|t|].work == work
    ensures HasWork(u, h, work)
  {
  }

  lemma {:induction false} DoneIs(p: Params, t: seq<Row>, run: seq<Header>, work: nat, u: seq<Row>)
    requires run != [] && RowsKept(t, u)
    requires forall i {:trigger u[i]} :: |t| <= i < |u| ==> u[i].link.Some? && u[i].h in run
    requires HasWork(u, run[|run| - 1], LastWork(p, t, run, work))
    requires FlagsStay(t, u) || exists n :: 0 <= n < |u| && GoodAt(p, u, n) && u[n].h in run
    ensures EachDone(p, t, run, work, u)
  {
    hide RowsKept, HasWork, LastWork, GoodAt, FlagsStay;
  }

  lemma {:induction false} FlagsOn(p: Params, t: seq<Row>, v: seq<Row>, u: seq<Row>, h: Header, run: seq<Header>)
    requires |v| == |t| + 1 && (FlagsStay(t, v) || GoodAt(p, v, |t|)) && FlagsStay(v, u) && Good(p, u)
    requires u[|t|].h == h && h in run
    ensures FlagsStay(t, u) || exists n :: 0 <= n < |u| && GoodAt(p, u, n) && u[n].h in run
  {
    hide Sound, Path, Root;
    if !FlagsStay(t, v) {
      assert u[|t|].tip;
      var k: nat :| GoodAt(p, u, k);
      assert k == |t|;
    }
  }

  lemma {:induction false} DupeStays(all: iset<Header>, p: Params, db: Db, h: Header, i: nat)
    requires Sound(Heads(db.rows)) && Admissible(Heads(db.rows), h) && Find(Heads(db.rows), h.hash) == Some(i)
    requires Agree(all) && AllIn(all, Heads(db.rows)) && h in all
    ensures RunAll(db, InsertHeader(p, db, h).txs) == db && i < |db.rows| && db.rows[i].h == h
  {
    AgreeAdmits(all, Heads(db.rows), h);
    HeadAt(db.rows, i);
    RunAllNone(db);
    hide Sound, RunAll, Judge, Heads, Admissible, ReorgTo;
  }

  lemma {:induction false} NewWrites(p: Params, db: Db, h: Header)
    requires Sound(Heads(db.rows)) && Admissible(Heads(db.rows), h) && Find(Heads(db.rows), h.hash).None?
    requires !Failed(InsertHeader(p, db, h).result)
    ensures InsertHeader(p, db, h).txs != []
    ensures Heads(RunAll(db, InsertHeader(p, db, h).txs).rows) == Heads(db.rows) + [h]
  {
    InsertStoresTx(p, db, h);
    RunAllNone(db);
    hide Sound, InsertHeader, Admissible, Heads, Find;
  }

  lemma {:induction false} NewRowOver(p: Params, t: seq<Row>, h: Header, b: nat)
    requires Sound(Heads(t)) && b < |t| && t[b].h.hash == h.prev
    ensures var row := NewRow(p, t, h, false);
            row.h == h && row.link == Some(b) && row.work == t[b].work + p.work(h.bits)
  {
    SoundPair(Heads(t), b, b);
    HeadAt(t, b);
    FindIs(Heads(t), b, Heads(t)[b].hash);
  }

  lemma {:induction false} EachLands(all: iset<Header>, p: Params, db: Db, run: seq<Header>, work: nat, b: nat)
    requires Agree(all) && AllIn(all, run) && AllIn(all, Heads(db.rows)) && Good(p, db.rows) && p.Ascending()
    requires Sound(Heads(db.rows)) && Linked(run) && !Failed(InsertEach(all, p, db, run).1)
    requires run != [] ==> b < |db.rows| && db.rows[b].h.hash == run[0].prev && db.rows[b].work == work
    ensures EachDone(p, db.rows, run, work, InsertEach(all, p, db, run).0.rows)
    decreases |run|
  {
    hide *;
    if run == [] {
      EachNone(all, p, db);
      DoneNone(p, db.rows, work);
    } else {
      EachStep(all, p, db, run);
      var h := run[0];
      var out := InsertHeader(p, db, h);
      var db1 := RunAll(db, out.txs);
      RunIn(all, run);
      match Find(Heads(db.rows), h.hash) {
        case Some(i) =>
          DupeStays(all, p, db, h, i);
          NextOn(run, db.rows, i);
          EachLands(all, p, db, run[1..], db.rows[i].work, i);
          DoneDupe(p, db.rows, run, work, i, InsertEach(all, p, db, run).0.rows);
        case None => EachNew(all, p, db, run, work, b, db1);
      }
    }
  }

  lemma {:induction false} NextOn(run: seq<Header>, t: seq<Row>, i: nat)
    requires Linked(run) && run != [] && i < |t| && t[i].h == run[0]
    ensures run[1..] != [] ==> t[i].h.hash == run[1..][0].prev
  {
  }

  lemma {:induction false} EachNew(all: iset<Header>, p: Params, db: Db, run: seq<Header>, work: nat, b: nat, db1: Db)
    requires Agree(all) && AllIn(all, run) && AllIn(all, Heads(db.rows)) && Good(p, db.rows) && p.Ascending()
    requires Sound(Heads(db.rows)) && Linked(run) && !Failed(InsertEach(all, p, db, run).1) && run != []
    requires b < |db.rows| && db.rows[b].h.hash == run[0].prev && db.rows[b].work == work
    requires Admissible(Heads(db.rows), run[0]) && Find(Heads(db.rows), run[0].hash).None?
    requires db1 == RunAll(db, InsertHeader(p, db, run[0]).txs)
    ensures EachDone(p, db.rows, run, work, InsertEach(all, p, db, run).0.rows)
    decreases |run|, 0
  {
    hide *;
    var t := db.rows;
    var h := run[0];
    var row := NewRow(p, t, h, false);
    EachStep(all, p, db, run);
    StepPasses(all, p, db, run);
    RunIn(all, run);
    NewWrites(p, db, h);
    NewRowOver(p, t, h, b);
    var k := SomeTip(p, t, b);
    InsertLands(p, db, k, h);
    LandedRow(p, t, row, db1.rows);
    NextOn(run, db1.rows, |t|);
    EachLands(all, p, db1, run[1..], row.work, |t|);
    EachKeepsClean(all, p, db1, run[1..]);
    var u := InsertEach(all, p, db1, run[1..]).0;
    CarriedGood(all, p, db1, u);
    RestDistinct(all, run);
    DoneNew(p, t, run, work, row, db1.rows, u.rows);
  }

  lemma {:induction false} StepPasses(all: iset<Header>, p: Params, db: Db, run: seq<Header>)
    requires Agree(all) && AllIn(all, run) && AllIn(all, Heads(db.rows)) && Sound(Heads(db.rows))
    requires run != [] && Admissible(Heads(db.rows), run[0]) && !Failed(InsertEach(all, p, db, run).1)
    ensures !Failed(InsertHeader(p, db, run[0]).result) && InsertHeader(p, db, run[0]).result != NoAncestor
  {
    hide Sound, RunAll, InsertHeader, Admissible, Heads;
  }

  lemma {:induction false} SomeTip(p: Params, t: seq<Row>, b: nat) returns (k: nat)
    requires Good(p, t) && b < |t|
    ensures GoodAt(p, t, k) && k < |t| && LinksTrue(t)
  {
    k :| GoodAt(p, t, k);
  }

  lemma {:induction false} LandedRow(p: Params, t: seq<Row>, row: Row, u: seq<Row>)
    requires Landed(p, t, row, u)
    ensures |u| == |t| + 1 && u[|t|].h == row.h && u[|t|].work == row.work
  {
    hide GoodAt;
  }

  lemma {:induction false} RestDistinct(all: iset<Header>, run: seq<Header>)
    requires Agree(all) && AllIn(all, run) && Linked(run) && run != []
    ensures forall j :: 0 <= j < |run[1..]| ==> run[1..][j].hash != run[0].hash
  {
    LinkedDistinct(all, run);
    hide Agree;
  }

  // ── One header at a time: the tip and the links ──────────────────────────

  /** A run that is all active on a clean store competes with nothing. */
  lemma {:induction false} ActiveNoCompete(t: seq<Row>, k: nat, run: seq<Header>)
    requires CleanAt(t, k) && Linked(run) && run != [] && StandsOnStored(t, run) && AllActive(t, run)
    ensures !Competes(t, run)
  {
    assert ActiveRow(t, run[0]);
    var i :| 0 <= i < |t| && t[i].active && t[i].h == run[0];
    ActiveParent(t, k, i, Find(Heads(t), run[0].prev).value);
    hide Sound, Path, Heads;
    forall m, j | 0 <= m < |t| && 0 <= j < |run| && t[m].active && t[m].h.height == run[j].height
      ensures t[m].h.hash == run[j].hash
    {
      assert ActiveRow(t, run[j]);
      var n :| 0 <= n < |t| && t[n].active && t[n].h == run[j];
      CleanRowsApart(t, k, m, n);
    }
  }

  lemma {:induction false} ActiveBefore(t: seq<Row>, u: seq<Row>, run: seq<Header>)
    requires RowsKept(t, u) && FlagsStay(t, u) && AllActive(u, run)
    ensures AllActive(t, run)
  {
    forall j | 0 <= j < |run| ensures ActiveRow(t, run[j]) {
      assert ActiveRow(u, run[j]);
      var i :| 0 <= i < |u| && u[i].active && u[i].h == run[j];
      assert i < |t| && t[i].active && t[i].h == run[j];
    }
  }

  /** The tip of a clean store whose header is one of a run that is all active is
      the row of its last header. */
  lemma {:induction false} TipIsLast(u: seq<Row>, n: nat, run: seq<Header>)
    requires CleanAt(u, n) && n < |u| && run != [] && Linked(run) && AllActive(u, run) && u[n].h in run
    ensures u[n].h == run[|run| - 1]
  {
    var j :| 0 <= j < |run| && run[j] == u[n].h;
    assert ActiveRow(u, run[|run| - 1]);
    var m :| 0 <= m < |u| && u[m].active && u[m].h == run[|run| - 1];
    CleanRow(u, n, m);
    LinkedHeights(run, j);
    LinkedHeights(run, |run| - 1);
  }

  lemma {:induction false} OneWork(t: seq<Row>, n: nat, h: Header, work: nat)
    requires Sound(Heads(t)) && n < |t| && t[n].h == h && HasWork(t, h, work)
    ensures t[n].work == work
  {
    var i :| 0 <= i < |t| && t[i].h == h && t[i].work == work;
    SoundPair(Heads(t), i, n);
  }

  /** A competing run whose headers all end active ends with the tip on its last
      header, stored with the work read before the call. */
  lemma {:induction false} EndsOnLast(p: Params, t: seq<Row>, k: nat, run: seq<Header>, work: nat, u: seq<Row>) returns (n: nat)
    requires GoodAt(p, t, k) && Linked(run) && run != [] && StandsOnStored(t, run) && Competes(t, run)
    requires EachDone(p, t, run, work, u) && AllActive(u, run)
    ensures GoodAt(p, u, n) && n < |u| && Sound(Heads(u)) && u[n].h == run[|run| - 1]
    ensures u[n].work == LastWork(p, t, run, work)
  {
    DoneParts(p, t, run, work, u);
    assert CleanAt(t, k);
    hide Sound, Path, Root, Heads, LastWork, HasWork, AllActive, Competes, Linked, StandsOnStored, RowsKept;
    if FlagsStay(t, u) {
      ActiveBefore(t, u, run);
      ActiveNoCompete(t, k, run);
    }
    n :| 0 <= n < |u| && GoodAt(p, u, n) && u[n].h in run;
    TipIsLast(u, n, run);
    OneWork(u, n, run[|run| - 1], LastWork(p, t, run, work));
  }

  /** The rows that get a link are those of the run that were stored without one. */
  lemma {:induction false} LinksOfRun(p: Params, t: seq<Row>, run: seq<Header>, u: seq<Row>, n: nat, i: nat)
    requires run != [] && RowsKept(t, u) && GoodAt(p, u, n) && n < |u| && Sound(Heads(u)) && u[n].h == run[|run| - 1]
    requires Linked(run) && AllActive(u, run) && StandsOnStored(t, run)
    requires forall i {:trigger u[i]} :: |t| <= i < |u| ==> u[i].link.Some? && u[i].h in run
    ensures GetsLink(u, i, run[0].height, run[|run| - 1].height + 1) <==>
              i < |t| && t[i].link.None? && t[i].h in run
  {
    if GetsLink(u, i, run[0].height, run[|run| - 1].height + 1) {
      GetsInRun(p, run, u, n, i);
    }
    if i < |t| && t[i].link.None? && t[i].h in run {
      var j :| 0 <= j < |run| && run[j] == t[i].h;
      RunGets(run, t, u, i, j);
    }
  }

  lemma {:induction false} GetsInRun(p: Params, run: seq<Header>, u: seq<Row>, n: nat, i: nat)
    requires run != [] && GoodAt(p, u, n) && n < |u| && u[n].h == run[|run| - 1] && Linked(run) && AllActive(u, run)
    requires i < |u| && u[i].active && run[0].height <= u[i].h.height
    ensures u[i].h in run
  {
    CleanRow(u, n, i);
    LinkedHeights(run, |run| - 1);
    var j := u[i].h.height - run[0].height;
    LinkedHeights(run, j);
    assert ActiveRow(u, run[j]);
    var m :| 0 <= m < |u| && u[m].active && u[m].h == run[j];
    CleanRowsApart(u, n, i, m);
  }

  lemma {:induction false} RunGets(run: seq<Header>, t: seq<Row>, u: seq<Row>, i: nat, j: nat)
    requires RowsKept(t, u) && Sound(Heads(u)) && Linked(run) && AllActive(u, run) && StandsOnStored(t, run)
    requires i < |t| && t[i].link.None? && j < |run| && run[j] == t[i].h
    ensures GetsLink(u, i, run[0].height, run[|run| - 1].height + 1)
  {
    assert ActiveRow(u, run[j]);
    var m :| 0 <= m < |u| && u[m].active && u[m].h == run[j];
    SameRowAs(u, m, i);
    LinkedHeights(run, j);
    LinkedHeights(run, |run| - 1);
    var q: nat;
    if j == 0 {
      q := Find(Heads(t), run[0].prev).value;
      assert u[q].h == t[q].h;
    } else {
      assert ActiveRow(u, run[j - 1]);
      q :| 0 <= q < |u| && u[q].active && u[q].h == run[j - 1];
    }
    HeadAt(u, q);
    assert u[q].h.hash == run[j].prev;
  }

  /** The rows of the run stored without a link have at most `work`. */
  ghost predicate StoredUnder(t: seq<Row>, run: seq<Header>, work: nat) {
    forall i :: 0 <= i < |t| && t[i].link.None? && t[i].h in run ==> t[i].work <= work
  }

  lemma {:induction false} LiveTop(p: Params, t: seq<Row>, k: nat, run: seq<Header>, work: nat, db: Db)
    requires GoodAt(p, t, k) && Linked(run) && run != [] && StandsOnStored(t, run) && Competes(t, run)
    requires EachDone(p, t, run, work, db.rows) && Good(p, db.rows) && AllSole(db.rows, run) && TopLinked(db.rows)
    ensures TopLinked(CanonicalizePushed(db, run).0.rows) <==> StoredUnder(t, run, LastWork(p, t, run, work))
  {
    var u := db.rows;
    var after := CanonicalizePushed(db, run).0.rows;
    var lo, hi := run[0].height, run[|run| - 1].height + 1;
    AllSoleActive(u, run);
    hide *;
    DoneParts(p, t, run, work, u);
    var n := EndsOnLast(p, t, k, run, work, u);
    GoodLinksTrue(p, u);
    GoodIsGrown(p, u, n);
    CanonicalizeFinishes(p, db, n, n, run);
    GoodIsCleanAt(p, after, n);
    FinishedTop(u, after, n, lo, hi);
    GoodTop(p, u, n);
    forall i: nat ensures GetsLink(u, i, lo, hi) <==> i < |t| && t[i].link.None? && t[i].h in run {
      LinksOfRun(p, t, run, u, n, i);
    }
    SameUnder(t, run, u, lo, hi, u[n].work);
  }

  lemma {:induction false} GoodLinksTrue(p: Params, t: seq<Row>)
    requires Good(p, t)
    ensures LinksTrue(t)
  {
  }

  lemma {:induction false} GoodIsCleanAt(p: Params, t: seq<Row>, k: nat)
    requires GoodAt(p, t, k)
    ensures CleanAt(t, k)
  {
  }

  lemma {:induction false} SameUnder(t: seq<Row>, run: seq<Header>, u: seq<Row>, lo: nat, hi: nat, work: nat)
    requires RowsKept(t, u)
    requires forall i: nat :: GetsLink(u, i, lo, hi) <==> i < |t| && t[i].link.None? && t[i].h in run
    ensures NewLinksUnder(u, lo, hi, work) <==> StoredUnder(t, run, work)
  {
    hide GetsLink;
    if StoredUnder(t, run, work) {
      forall i: nat | GetsLink(u, i, lo, hi) ensures u[i].work <= work { assert u[i].work == t[i].work; }
    }
    if NewLinksUnder(u, lo, hi, work) {
      forall i | 0 <= i < |t| && t[i].link.None? && t[i].h in run ensures t[i].work <= work {
        assert GetsLink(u, i, lo, hi);
        assert u[i].work == t[i].work;
      }
    }
  }

  // ── The push ─────────────────────────────────────────────────────────────

  lemma {:induction false} EachTop(all: iset<Header>, p: Params, db: Db, run: seq<Header>)
    requires Inv(all, p, db) && AllIn(all, run) && TopLinked(db.rows) && WorkLow(p, db.rows)
    requires Agree(all) && AllIn(all, Heads(db.rows)) && Sound(Heads(db.rows))
    requires InsertEach(all, p, db, run).1 != NoAncestor
    ensures TopLinked(InsertEach(all, p, db, run).0.rows)
    decreases |run|
  {
    if run != [] {
      InvIs(all, p, db);
      hide *;
      EachStep(all, p, db, run);
      var out := InsertHeader(p, db, run[0]);
      var db1 := RunAll(db, out.txs);
      EachResult(all, p, db, run);
      AllInFirst(all, run);
      InsertOkTop(all, p, db, run[0]);
      InsertClimbs(p, db, run[0]);
      AllClimbLast(p, db, out.txs);
      LowOf(p, db.rows, db1.rows);
      if !Failed(out.result) {
        IsInv(all, p, db1);
        EachTop(all, p, db1, run[1..]);
      }
    }
  }

  lemma {:induction false} AllInFirst(all: iset<Header>, run: seq<Header>)
    requires AllIn(all, run) && run != []
    ensures run[0] in all
  {
  }

  lemma {:induction false} InvIs(all: iset<Header>, p: Params, db: Db)
    requires Inv(all, p, db)
    ensures Agree(all) && p.Ascending() && Good(p, db.rows) && AllIn(all, Heads(db.rows))
  {
  }

  lemma {:induction false} IsInv(all: iset<Header>, p: Params, db: Db)
    requires Agree(all) && p.Ascending() && Good(p, db.rows) && AllIn(all, Heads(db.rows))
    ensures Inv(all, p, db)
  {
  }

  lemma {:induction false} EachResult(all: iset<Header>, p: Params, db: Db, run: seq<Header>)
    requires Agree(all) && AllIn(all, run) && AllIn(all, Heads(db.rows)) && Sound(Heads(db.rows)) && run != []
    requires Admissible(Heads(db.rows), run[0]) && InsertEach(all, p, db, run).1 != NoAncestor
    ensures InsertHeader(p, db, run[0]).result != NoAncestor
  {
    hide Sound, RunAll, InsertHeader, Admissible, Heads;
  }

  /** The rows a served push links do not outwork the tip it leaves, read before
      the call: of a run that goes header by header, the rows stored without a
      link against the work its last header comes to; of a run that is active
      already, the rows without a link against the tip; a run that adds to the
      tip goes over none that could. */
  ghost predicate LinksLow(p: Params, t: seq<Row>, run: seq<Header>) {
    run == [] ||
    if Competes(t, run) then StoredUnder(t, run, LastWork(p, t, run, RunWork(t, run)))
    else AllActive(t, run) && ChainTip(t).Some? ==>
           NewLinksUnder(t, run[0].height, run[|run| - 1].height + 1, t[ChainTip(t).value].work)
  }

  /** Inserted one at a time, then canonicalized. */
  lemma {:induction false} PushLiveTop(all: iset<Header>, p: Params, db: Db, k: nat, run: seq<Header>)
    requires Inv(all, p, db) && AllIn(all, run) && TopLinked(db.rows) && WorkLow(p, db.rows)
    requires Agree(all) && AllIn(all, Heads(db.rows)) && Sound(Heads(db.rows)) && GoodAt(p, db.rows, k)
    requires run != [] && Linked(run) && StandsOnStored(db.rows, run) && Competes(db.rows, run)
    requires InsertEach(all, p, db, run).1 != NoAncestor
    ensures var (mid, result) := InsertEach(all, p, db, run);
            var out := CanonicalizePushed(mid, run);
            && TopLinked(mid.rows)
            && (!Failed(result) && out.1 != Served ==> out.0 == mid)
            && (!Failed(result) && out.1 == Served ==>
                  (TopLinked(out.0.rows) <==> StoredUnder(db.rows, run, LastWork(p, db.rows, run, RunWork(db.rows, run)))))
  {
    var b := BaseRow(db.rows, run);
    InvIs(all, p, db);
    hide *;
    EachTop(all, p, db, run);
    var (mid, result) := InsertEach(all, p, db, run);
    if !Failed(result) {
      EachKeepsClean(all, p, db, run);
      CarriedGood(all, p, db, mid);
      HeadsStored(mid.rows, run);
      NotActivated(p, mid, run);
      if CanonicalizePushed(mid, run).1 == Served {
        EachLands(all, p, db, run, RunWork(db.rows, run), b);
        LiveTop(p, db.rows, k, run, RunWork(db.rows, run), mid);
      }
    }
  }

  lemma {:induction false} BaseRow(t: seq<Row>, run: seq<Header>) returns (b: nat)
    requires run != [] && StandsOnStored(t, run)
    ensures b < |t| && t[b].h.hash == run[0].prev && t[b].work == RunWork(t, run)
  {
    b := Find(Heads(t), run[0].prev).value;
  }

  /** On a good store a push is served exactly when its headers are the only
      active rows at their heights, and changes nothing otherwise. */
  lemma {:induction false} NotActivated(p: Params, db: Db, run: seq<Header>)
    requires Good(p, db.rows) && Linked(run) && AllStored(db.rows, run) && run != []
    ensures CanonicalizePushed(db, run).1 == Served ==> AllSole(db.rows, run)
    ensures CanonicalizePushed(db, run).1 != Served ==> CanonicalizePushed(db, run).0 == db
  {
    assert Stored(db.rows, run[0]);
    var k: nat :| GoodAt(p, db.rows, k);
    assert CleanAt(db.rows, k);
    NeverActivatesOnClean(db, k, run);
    hide Sound, Path, Root, Run, AllSole, TipToHighest, ActivationBatch;
  }

  /** After a push that found its ancestors no row with a parent link outworks the
      tip, unless it was served; served, exactly when the rows it links do not. */
  lemma {:induction false} PushTop(all: iset<Header>, p: Params, db: Db, run: seq<Header>)
    requires Inv(all, p, db) && Allowed(all, db, PushCall(run)) && TopLinked(db.rows) && WorkLow(p, db.rows)
    requires Agree(all) && AllIn(all, run) && AllIn(all, Heads(db.rows)) && Sound(Heads(db.rows))
    requires InsertHeadersBatch(all, p, db, run).1 != NoAncestor
    ensures var out := IngestPushed(all, p, db, run);
            if out.1 == Some(Served) then TopLinked(out.0.rows) <==> LinksLow(p, db.rows, run)
            else TopLinked(out.0.rows)
  {
    if run == [] {
      CanonicalizeNone(db);
      hide Inv, TopLinked, WorkLow;
    } else if JudgeRun(p, db.rows, run).Some? {
      hide JudgeRun, Inv, TopLinked, WorkLow;
    } else {
      InvIs(all, p, db);
      var k := TipOf(p, db.rows, run);
      JudgedLinked(p, db.rows, run);
      hide JudgeRun, Inv, TopLinked, WorkLow, Good, GoodAt, Sound, Heads, InsertEach, CanonicalizePushed, BulkStmts, Run,
           StoredUnder, NewLinksUnder, AllActive, LastWork, Agree, AllIn, Linked, Competes, RunWork;
      if Competes(db.rows, run) {
        PushLiveTop(all, p, db, k, run);
      } else {
        PushBulkTop(all, p, db, k, run);
      }
    }
  }

  lemma {:induction false} PushBulkTop(all: iset<Header>, p: Params, db: Db, k: nat, run: seq<Header>)
    requires Agree(all) && AllIn(all, run) && AllIn(all, Heads(db.rows)) && Sound(Heads(db.rows))
    requires GoodAt(p, db.rows, k) && LinksTrue(db.rows) && k < |db.rows|
    requires run != [] && StandsOnStored(db.rows, run) && JudgeRun(p, db.rows, run).None? && !Competes(db.rows, run)
    requires WorkLow(p, db.rows) && TopLinked(db.rows)
    ensures var out := IngestPushed(all, p, db, run);
            && out.1 == Some(Served)
            && (TopLinked(out.0.rows) <==>
                  (AllActive(db.rows, run) ==>
                     NewLinksUnder(db.rows, run[0].height, run[|run| - 1].height + 1, db.rows[k].work)))
  {
    hide *;
    var y := PushBulkWorks(all, p, db, k, run);
    BulkTop(p, db, k, run, y, IngestPushed(all, p, db, run).0.rows);
  }

  /** A push that stands on the tip links no row that outworks it. */
  lemma {:induction false} TipPushLinksLow(all: iset<Header>, p: Params, t: seq<Row>, k: nat, run: seq<Header>)
    requires Agree(all) && AllIn(all, run) && AllIn(all, Heads(t)) && Linked(run)
    requires CleanAt(t, k) && Sound(Heads(t)) && k < |t| && run != [] && run[0].prev == t[k].h.hash
    ensures LinksLow(p, t, run)
  {
    CleanTip(t, k);
    HeadAt(t, k);
    SameRowAs(t, Find(Heads(t), run[0].prev).value, k);
    assert Heads(t)[k] in all && run[0] in all;
    if AllActive(t, run) {
      assert ActiveRow(t, run[0]);
      var i :| 0 <= i < |t| && t[i].active && t[i].h == run[0];
      CleanRow(t, k, i);
    }
    hide Sound, Path, Root, Heads, StoredUnder, NewLinksUnder;
    forall j | 0 <= j < |run| ensures t[k].h.height < run[j].height { LinkedHeights(run, j); }
  }
}
