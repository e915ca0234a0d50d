/** The most-work rule over a push: the works it stores, and exactly when the
    stored works stay within what their parents allow (src/storage.rs:1215-1250). */
module MostWorkPush {
  import opened Wrappers
  import opened Headers
  import opened HeaderTable
  import opened CleanStore
  import opened Live
  import opened Bulk
  import opened Growth
  import opened Push
  import opened PushClean
  import opened MostWork
  import opened Runs

  // ── The run's sums ───────────────────────────────────────────────────────

  /** The run's sum below the header that stands on row `x` is the stored work of
      `x`: the works carried over rows that are active already end at the work
      the tip has. */
  ghost predicate SumsMeet(p: Params, t: seq<Row>, x: nat, run: seq<Header>, work: nat)
    requires x < |t|
    decreases |run|
  {
    run == [] || if run[0].prev == t[x].h.hash then work == t[x].work
                 else SumsMeet(p, t, x, run[1..], work + p.work(run[0].bits))
  }

  // ── The part of the run that is active already ───────────────────────────

  /** The active row of a header, its stored work at most `work`. */
  ghost predicate CarriedAt(t: seq<Row>, h: Header, work: nat) {
    exists i :: 0 <= i < |t| && t[i].active && t[i].h == h && t[i].work <= work
  }

  /** The first `m` headers are active rows whose works are at most the sum over
      them; the next one, if there is one, stands on the tip. */
  ghost predicate ActivePart(p: Params, t: seq<Row>, k: nat, run: seq<Header>, work: nat, m: nat)
    requires k < |t|
  {
    && m <= |run|
    && (forall j :: 0 <= j < m ==> CarriedAt(t, run[j], work + SumWork(p, run[..m])))
    && (m < |run| ==> run[m].prev == t[k].h.hash && t[k].work <= work + SumWork(p, run[..m]))
    && PlaceRun(p, t, run, work) == PlaceRun(p, t, run[m..], work + SumWork(p, run[..m]))
    && (SumsMeet(p, t, k, run, work) <==> m == |run| || work + SumWork(p, run[..m]) == t[k].work)
  }

  lemma {:induction false} ActiveWork(p: Params, t: seq<Row>, i: nat, b: nat)
    requires Sound(Heads(t)) && WorkLow(p, t) && i < |t| && b < |t| && t[i].h.prev == t[b].h.hash
    ensures t[i].work <= t[b].work + p.work(t[i].h.bits)
  {
    ParentIs(Heads(t), i, b);
    hide Sound;
  }

  lemma {:induction false} SameRowAs(t: seq<Row>, b: nat, k: nat)
    requires Sound(Heads(t)) && b < |t| && k < |t| && t[b].h.hash == t[k].h.hash
    ensures b == k
  {
    SoundPair(Heads(t), b, k);
  }

  lemma {:induction false} SplitRun(p: Params, t: seq<Row>, k: nat, run: seq<Header>, work: nat, b: nat)
    returns (m: nat)
    requires Sound(Heads(t)) && WorkLow(p, t) && k < |t| && StandsOn(t, k, run) && Linked(run)
    requires run != [] ==> b < |t| && t[b].h.hash == run[0].prev && t[b].work <= work
    ensures m <= |run| && ActivePart(p, t, k, run, work, m)
    decreases |run|
  {
    hide Sound, Heads, WorkLow, PlaceRun, Place, CarriedAt;
    if run == [] {
      m := 0;
      assert run[0..] == run && run[..0] == [];
    } else if run[0].prev == t[k].h.hash {
      m := 0;
      SameRowAs(t, b, k);
      assert run[0..] == run && run[..0] == [];
    } else {
      var i :| 0 <= i < |t| && t[i].active && t[i].h == run[0];
      ActiveWork(p, t, i, b);
      var n := SplitRun(p, t, k, run[1..], work + p.work(run[0].bits), i);
      m := n + 1;
      PlaceSame(t, run[0], work + p.work(run[0].bits));
      PlaceRunNext(p, t, run, work);
      SumNext(p, run, n);
      ActiveMore(p, t, k, run, work, n, i);
    }
  }

  lemma {:induction false} ActiveMore(p: Params, t: seq<Row>, k: nat, run: seq<Header>, work: nat, n: nat, i: nat)
    requires k < |t| && run != [] && run[0].prev != t[k].h.hash && n <= |run[1..]|
    requires i < |t| && t[i].active && t[i].h == run[0] && t[i].work <= work + p.work(run[0].bits)
    requires ActivePart(p, t, k, run[1..], work + p.work(run[0].bits), n)
    requires PlaceRun(p, t, run, work) == PlaceRun(p, t, run[1..], work + p.work(run[0].bits))
    requires SumWork(p, run[..n + 1]) == p.work(run[0].bits) + SumWork(p, run[1..][..n])
    ensures ActivePart(p, t, k, run, work, n + 1)
  {
    hide PlaceRun, SumWork;
    assert run[1..][n..] == run[n + 1..];
    forall j | 0 <= j < n + 1 ensures CarriedAt(t, run[j], work + SumWork(p, run[..n + 1])) {
      if j > 0 { assert run[1..][j - 1] == run[j]; }
    }
  }

  // ── The part that stands on the tip ──────────────────────────────────────

  /** No inactive row has more work than its stored parent's plus its own. */
  ghost predicate InactiveLow(p: Params, t: seq<Row>) {
    forall i :: 0 <= i < |t| && !t[i].active ==> t[i].work <= WorkBelow(t, i) + p.work(t[i].h.bits)
  }

  /** Rows active already are left as they stand. */
  ghost predicate KeepsActive(t: seq<Row>, u: seq<Row>) {
    |t| <= |u| && forall i {:trigger u[i]} :: 0 <= i < |t| && t[i].active ==> u[i] == t[i]
  }

  /** Every row is as it was, or active with at most `work`. */
  ghost predicate PlacedUnder(t: seq<Row>, u: seq<Row>, work: nat) {
    |t| <= |u| && forall i {:trigger u[i]} :: 0 <= i < |u| ==> (i < |t| && u[i] == t[i]) || (u[i].active && u[i].work <= work)
  }

  lemma {:induction false} WorkBelowRises(t: seq<Row>, u: seq<Row>, i: nat)
    requires Sound(Heads(u)) && WorkKept(t, u) && i < |t|
    ensures WorkBelow(t, i) <= WorkBelow(u, i)
  {
    var q := Parent(Heads(t), i);
    if q.Some? {
      HeadAt(u, q.value);
      HeadAt(u, i);
      ParentIs(Heads(u), i, q.value);
    }
  }

  /** What placing one header that stands on row `x` does to the works, the row
      placed being `z`. */
  ghost predicate WorksPlaced(p: Params, t: seq<Row>, x: nat, u: seq<Row>, z: nat, work: nat)
    requires x < |t|
  {
    && z < |u| && WorkKept(t, u) && KeepsActive(t, u) && PlacedUnder(t, u, work) && InactiveLow(p, u)
    && u[z].active && u[z].work == work
    && (WorkLow(p, t) && work == t[x].work + p.work(u[z].h.bits) ==> WorkLow(p, u))
  }

  /** Every row but `z` is as it was, and `z` has `work` over the row `x`. */
  ghost predicate OnlyRow(t: seq<Row>, x: nat, u: seq<Row>, z: nat, work: nat)
    requires x < |t|
  {
    && |t| <= |u| && z < |u| && x != z && u[z].active && u[z].work == work && u[z].h.prev == t[x].h.hash
    && (forall i {:trigger u[i]} :: 0 <= i < |u| && i != z ==> i < |t| && u[i] == t[i])
    && (z < |t| ==> !t[z].active && u[z].h == t[z].h)
  }

  lemma {:induction false} OnlyRowWorks(p: Params, t: seq<Row>, x: nat, u: seq<Row>, z: nat, work: nat)
    requires Sound(Heads(t)) && Sound(Heads(u)) && x < |t| && OnlyRow(t, x, u, z, work)
    requires InactiveLow(p, t) && t[x].work + p.work(u[z].h.bits) <= work
    ensures WorksPlaced(p, t, x, u, z, work)
  {
    hide Sound, Heads, WorkBelow;
    if z < |t| { BelowIs(t, z, x); }
    BelowIs(u, z, x);
    assert WorkKept(t, u);
    forall i | 0 <= i < |t| && i != z ensures WorkBelow(t, i) <= WorkBelow(u, i) { WorkBelowRises(t, u, i); }
  }

  lemma {:induction false} BelowIs(t: seq<Row>, i: nat, q: nat)
    requires Sound(Heads(t)) && i < |t| && q < |t| && t[i].h.prev == t[q].h.hash
    ensures WorkBelow(t, i) == t[q].work
  {
    ParentIs(Heads(t), i, q);
  }

  lemma {:induction false} OnlyNew(t: seq<Row>, x: nat, row: Row)
    requires x < |t| && row.active && row.h.prev == t[x].h.hash
    ensures OnlyRow(t, x, t + [row], |t|, row.work)
  {
  }

  lemma {:induction false} OnlyUpdated(t: seq<Row>, x: nat, n: nat, work: nat)
    requires x < |t| && n < |t| && x != n && !t[n].active && t[n].h.prev == t[x].h.hash
    ensures OnlyRow(t, x, t[n := t[n].(active := true, work := work)], n, work)
  {
  }

  lemma {:induction false} GrownTop(p: Params, t: seq<Row>, k: nat, x: nat)
    requires Grown(p, t, k, x)
    ensures x < |t| && t[x].active && Sound(Heads(t))
  {
    PathSelf(Heads(t), x);
  }

  /** The header that stands on the top of a grown store is the one row placed. */
  lemma {:induction false} PlaceOne(all: iset<Header>, p: Params, t: seq<Row>, k: nat, x: nat, h: Header, work: nat) returns (z: nat)
    requires Agree(all) && AllIn(all, Heads(t)) && h in all && Grown(p, t, k, x) && x < |t| && h.prev == t[x].h.hash
    ensures z < |Place(t, h, work)| && Place(t, h, work)[z].h == h
    ensures Grown(p, Place(t, h, work), k, z) && OnlyRow(t, x, Place(t, h, work), z, work)
  {
    GrownTop(p, t, k, x);
    AgreeAdmits(all, Heads(t), h);
    hide Sound, Path, Root, Fits, Grown, Place, OnlyRow, Agree, AllIn;
    match Find(Heads(t), h.hash) {
      case None =>
        z := |t|;
        GrowNew(p, t, k, x, h, work);
        OnlyNew(t, x, Row(h, None, true, false, work));
      case Some(i) =>
        z := i;
        HeadAt(t, i);
        GrowStored(p, t, k, x, h, work, i);
        OnlyUpdated(t, x, i, work);
    }
  }

  // ── The rest of the run, stacked on the tip ──────────────────────────────

  ghost predicate HasWork(t: seq<Row>, h: Header, work: nat) {
    exists i :: 0 <= i < |t| && t[i].h == h && t[i].work == work
  }

  /** A run stacked on row `x` of a table, its last header the top row `y`. */
  ghost predicate Stacked(p: Params, t: seq<Row>, k: nat, x: nat, run: seq<Header>, work: nat, u: seq<Row>, y: nat)
    requires x < |t| && run != []
  {
    && Grown(p, u, k, y) && y < |u| && u[y].h == run[|run| - 1] && u[y].work == work + SumWork(p, run)
    && HasWork(u, run[0], work + p.work(run[0].bits))
    && WorkKept(t, u) && KeepsActive(t, u) && PlacedUnder(t, u, u[y].work)
    && (WorkLow(p, t) && work == t[x].work ==> WorkLow(p, u))
  }

  lemma {:induction false} Stack(all: iset<Header>, p: Params, t: seq<Row>, k: nat, x: nat, run: seq<Header>, work: nat)
    returns (y: nat)
    requires Agree(all) && AllIn(all, Heads(t)) && AllIn(all, run) && Linked(run) && run != []
    requires Grown(p, t, k, x) && x < |t| && run[0].prev == t[x].h.hash
    requires InactiveLow(p, t) && t[x].work <= work
    ensures Stacked(p, t, k, x, run, work, PlaceRun(p, t, run, work), y)
    decreases |run|
  {
    hide *;
    var h := run[0];
    var w := work + p.work(h.bits);
    var u := Place(t, h, w);
    RunIn(all, run);
    GrownTop(p, t, k, x);
    var z := PlaceOne(all, p, t, k, x, h, w);
    GrownTop(p, u, k, z);
    OnlyRowWorks(p, t, x, u, z, w);
    PlaceRunNext(p, t, run, work);
    SumNext(p, run, 0);
    if |run| == 1 {
      assert run[1..] == [];
      PlaceRunEmpty(p, u, w);
      SumNone(p);
      y := z;
      StackedOne(p, t, k, x, h, work, u, z);
      assert run == [h];
    } else {
      GrowOneIn(all, p, t, h, w);
      NextOnTop(run, u, z);
      WorksLow(p, t, x, u, z, w);
      y := Stack(all, p, u, k, z, run[1..], w);
      StackedMore(p, t, k, x, run, work, u, z, PlaceRun(p, t, run, work), y);
    }
  }

  lemma {:induction false} RunIn(all: iset<Header>, run: seq<Header>)
    requires AllIn(all, run) && Linked(run) && run != []
    ensures run[0] in all && AllIn(all, run[1..]) && Linked(run[1..])
  {
  }

  lemma {:induction false} NextOnTop(run: seq<Header>, u: seq<Row>, z: nat)
    requires 1 < |run| && Linked(run) && z < |u| && u[z].h == run[0]
    ensures run[1..] != [] && run[1..][0].prev == u[z].h.hash
  {
  }

  lemma {:induction false} WorksLow(p: Params, t: seq<Row>, x: nat, u: seq<Row>, z: nat, work: nat)
    requires x < |t| && WorksPlaced(p, t, x, u, z, work)
    ensures z < |u| && InactiveLow(p, u) && u[z].work == work
  {
  }

  lemma {:induction false} StackedOne(p: Params, t: seq<Row>, k: nat, x: nat, h: Header, work: nat, u: seq<Row>, z: nat)
    requires x < |t| && z < |u| && u[z].h == h && Grown(p, u, k, z)
    requires WorksPlaced(p, t, x, u, z, work + p.work(h.bits))
    ensures Stacked(p, t, k, x, [h], work, u, z)
  {
    hide Grown, WorkLow, InactiveLow, KeepsActive, WorkKept, PlacedUnder;
    SumNext(p, [h], 0);
    assert [h][1..] == [];
    assert HasWork(u, h, work + p.work(h.bits));
  }

  lemma {:induction false} StackedMore(p: Params, t: seq<Row>, k: nat, x: nat, run: seq<Header>, work: nat,
                                       u: seq<Row>, z: nat, v: seq<Row>, y: nat)
    requires x < |t| && 1 < |run| && z < |u| && u[z].h == run[0] && WorksPlaced(p, t, x, u, z, work + p.work(run[0].bits))
    requires run[1..] != [] && Stacked(p, u, k, z, run[1..], work + p.work(run[0].bits), v, y)
    ensures Stacked(p, t, k, x, run, work, v, y)
  {
    hide Grown, WorkLow, InactiveLow;
    SumNext(p, run, 0);
    assert run[1..][|run| - 2] == run[|run| - 1];
    assert u[z].work <= v[y].work;
    assert v[z] == u[z];
    forall i | 0 <= i < |v| ensures (i < |t| && v[i] == t[i]) || (v[i].active && v[i].work <= v[y].work) {
      if i < |u| && v[i] == u[i] { assert (i < |t| && u[i] == t[i]) || (u[i].active && u[i].work <= u[z].work); }
    }
  }

  // ── The bulk path on a clean store ───────────────────────────────────────

  /** The active rows from a height up have at most `work`. */
  ghost predicate ActiveUnder(t: seq<Row>, height: nat, work: nat) {
    forall i :: 0 <= i < |t| && t[i].active && height <= t[i].h.height ==> t[i].work <= work
  }

  /** What the bulk path leaves of a clean store with the tip `k`: nothing new
      and the table as it was, or the run's last header on top with more work
      than the tip and than every active row the run went over. */
  ghost predicate BulkDone(p: Params, t: seq<Row>, k: nat, run: seq<Header>, v: seq<Row>, y: nat)
    requires k < |t| && run != []
  {
    && Grown(p, v, k, y) && AllActive(v, run) && y < |v| && WorkKept(t, v) && PlacedUnder(t, v, v[y].work)
    && if y == k then v == t
       else t[k].work < v[y].work && v[y].h == run[|run| - 1] && v[y].work == RunWork(t, run) + SumWork(p, run)
            && ActiveUnder(t, run[0].height, v[y].work) && KeepsActive(t, v)
  }

  lemma {:induction false} LowInactive(p: Params, t: seq<Row>)
    requires WorkLow(p, t)
    ensures InactiveLow(p, t)
  {
  }

  /** Whatever was pushed, the stored works keep within their parents' exactly
      when the run's sum meets the tip. */
  lemma {:induction false} BulkWorks(all: iset<Header>, p: Params, db: Db, k: nat, run: seq<Header>) returns (y: nat)
    requires Agree(all) && AllIn(all, run) && AllIn(all, Heads(db.rows))
    requires GoodAt(p, db.rows, k) && LinksTrue(db.rows) && k < |db.rows| && Sound(Heads(db.rows))
    requires run != [] && StandsOnStored(db.rows, run) && Linked(run) && !Competes(db.rows, run)
    requires WorkLow(p, db.rows)
    ensures BulkDone(p, db.rows, k, run, InsertBulk(p, db, run).rows, y)
    ensures WorkLow(p, InsertBulk(p, db, run).rows) <==> SumsMeet(p, db.rows, k, run, RunWork(db.rows, run))
  {
    var t := db.rows;
    var b := RunBase(t, run);
    hide *;
    RunOnChain(all, p, t, k, run);
    InsertBulkPlaces(all, p, db, run);
    y := BulkGrows(all, p, db, k, run);
    var m := SplitRun(p, t, k, run, RunWork(t, run), b);
    BulkParts(all, p, t, k, run, RunWork(t, run), m, PlaceRun(p, t, run, RunWork(t, run)), y);
  }

  lemma {:induction false} RunBase(t: seq<Row>, run: seq<Header>) returns (b: nat)
    requires run != [] && StandsOnStored(t, run)
    ensures b < |t| && t[b].h.hash == run[0].prev && t[b].work <= RunWork(t, run)
  {
    b := Find(Heads(t), run[0].prev).value;
  }

  lemma {:induction false} BulkParts(all: iset<Header>, p: Params, t: seq<Row>, k: nat, run: seq<Header>, work: nat, m: nat,
                                     v: seq<Row>, y: nat)
    requires Agree(all) && AllIn(all, run) && AllIn(all, Heads(t)) && GoodAt(p, t, k) && LinksTrue(t) && k < |t|
    requires Sound(Heads(t)) && WorkLow(p, t) && run != [] && Linked(run)
    requires m <= |run| && ActivePart(p, t, k, run, work, m) && v == PlaceRun(p, t, run, work) && work == RunWork(t, run)
    requires Grown(p, v, k, y) && AllActive(v, run)
    ensures BulkDone(p, t, k, run, v, y)
    ensures WorkLow(p, v) <==> SumsMeet(p, t, k, run, work)
  {
    hide *;
    var w := work + SumWork(p, run[..m]);
    PartIs(p, t, k, run, work, m, w);
    if m == |run| {
      PlaceRunEmpty(p, t, w);
      GoodIsGrown(p, t, k);
      BulkNothing(p, t, k, run, y);
    } else {
      BulkAdds(all, p, t, k, run, m, w, v, y);
    }
  }

  /** The run adds to the tip from its header `m` on, over the sum `work`. */
  lemma {:induction false} BulkAdds(all: iset<Header>, p: Params, t: seq<Row>, k: nat, run: seq<Header>, m: nat, work: nat,
                                    v: seq<Row>, y: nat)
    requires Agree(all) && AllIn(all, run) && AllIn(all, Heads(t)) && GoodAt(p, t, k) && LinksTrue(t) && k < |t|
    requires Sound(Heads(t)) && WorkLow(p, t) && run != [] && Linked(run) && m < |run|
    requires forall j :: 0 <= j < m ==> CarriedAt(t, run[j], work)
    requires run[m].prev == t[k].h.hash && t[k].work <= work && run[m..] != [] && run[m..][0] == run[m]
    requires run[m..][|run[m..]| - 1] == run[|run| - 1] && work == RunWork(t, run) + SumWork(p, run[..m])
    requires v == PlaceRun(p, t, run[m..], work) && Grown(p, v, k, y) && AllActive(v, run)
    ensures BulkDone(p, t, k, run, v, y) && (WorkLow(p, v) <==> work == t[k].work)
  {
    hide *;
    LowInactive(p, t);
    TailIn(all, run, m);
    GoodIsGrown(p, t, k);
    var z := Stack(all, p, t, k, k, run[m..], work);
    StackedGrown(p, t, k, run[m..], work, v, z);
    GrownSame(p, v, k, y, z);
    OverlapUnder(all, p, t, k, run, m, work);
    SumFrom(p, t, run, m, work);
    BulkStacked(p, t, k, run, m, work, v, y);
  }

  lemma {:induction false} SumFrom(p: Params, t: seq<Row>, run: seq<Header>, m: nat, work: nat)
    requires run != [] && m <= |run| && work == RunWork(t, run) + SumWork(p, run[..m])
    ensures work + SumWork(p, run[m..]) == RunWork(t, run) + SumWork(p, run)
  {
    hide *;
    SumSplit(p, run, m);
  }

  lemma {:induction false} PartIs(p: Params, t: seq<Row>, k: nat, run: seq<Header>, work: nat, m: nat, w: nat)
    requires k < |t| && ActivePart(p, t, k, run, work, m) && m <= |run| && w == work + SumWork(p, run[..m])
    ensures PlaceRun(p, t, run, work) == PlaceRun(p, t, run[m..], w)
    ensures forall j :: 0 <= j < m ==> CarriedAt(t, run[j], w)
    ensures m == |run| ==> run[m..] == [] && SumsMeet(p, t, k, run, work)
    ensures m < |run| ==> run[m].prev == t[k].h.hash && t[k].work <= w && (SumsMeet(p, t, k, run, work) <==> w == t[k].work)
    ensures m < |run| ==> run[m..] != [] && run[m..][0] == run[m] && run[m..][|run[m..]| - 1] == run[|run| - 1]
  {
    hide PlaceRun, SumWork, SumsMeet, CarriedAt;
  }

  lemma {:induction false} StackedGrown(p: Params, t: seq<Row>, k: nat, run: seq<Header>, work: nat, v: seq<Row>, z: nat)
    requires k < |t| && run != [] && Stacked(p, t, k, k, run, work, v, z)
    ensures Grown(p, v, k, z)
  {
    hide Grown;
  }

  lemma {:induction false} BulkNothing(p: Params, t: seq<Row>, k: nat, run: seq<Header>, y: nat)
    requires k < |t| && Grown(p, t, k, k) && Grown(p, t, k, y) && AllActive(t, run) && run != []
    ensures BulkDone(p, t, k, run, t, y)
  {
    GrownSame(p, t, k, k, y);
    SameTable(t);
    hide Grown, AllActive;
  }

  lemma {:induction false} BulkStacked(p: Params, t: seq<Row>, k: nat, run: seq<Header>, m: nat, work: nat, v: seq<Row>, y: nat)
    requires Sound(Heads(t)) && k < |t| && run != [] && m < |run| && GoodAt(p, t, k) && WorkLow(p, t)
    requires run[m].prev == t[k].h.hash && t[k].work <= work && run[m..] != [] && run[m..][0] == run[m]
    requires run[m..][|run[m..]| - 1] == run[|run| - 1]
    requires Stacked(p, t, k, k, run[m..], work, v, y) && Grown(p, v, k, y) && AllActive(v, run)
    requires ActiveUnder(t, run[0].height, work) && work + SumWork(p, run[m..]) == RunWork(t, run) + SumWork(p, run)
    ensures BulkDone(p, t, k, run, v, y) && (WorkLow(p, v) <==> work == t[k].work)
  {
    StackedParts(p, t, k, run[m..], work, v, y);
    UnderMore(t, run[0].height, work, v[y].work);
    if work != t[k].work { FirstTooHigh(p, t, k, v, run[m], work); }
    hide Sound, Grown, AllActive, WorkKept, PlacedUnder, ActiveUnder, WorkLow, GoodAt, Stacked, HasWork, KeepsActive,
         SumWork, RunWork;
  }

  lemma {:induction false} GrownSame(p: Params, t: seq<Row>, k: nat, x: nat, y: nat)
    requires Grown(p, t, k, x) && Grown(p, t, k, y)
    ensures x == y && y < |t|
  {
    TopIsHighest(p, t, k, x);
    TopIsHighest(p, t, k, y);
  }

  lemma {:induction false} SameTable(t: seq<Row>)
    ensures WorkKept(t, t) && forall work: nat :: PlacedUnder(t, t, work)
  {
  }

  lemma {:induction false} TailIn(all: iset<Header>, run: seq<Header>, m: nat)
    requires AllIn(all, run) && Linked(run) && m < |run|
    ensures AllIn(all, run[m..]) && Linked(run[m..]) && run[m..] != []
  {
  }

  lemma {:induction false} StackedParts(p: Params, t: seq<Row>, k: nat, run: seq<Header>, work: nat, v: seq<Row>, y: nat)
    requires Sound(Heads(t)) && k < |t| && run != [] && Stacked(p, t, k, k, run, work, v, y) && t[k].work <= work
    requires GoodAt(p, t, k)
    ensures y < |v| && v[y].h == run[|run| - 1] && work < v[y].work && y != k && KeepsActive(t, v)
    ensures v[y].work == work + SumWork(p, run)
    ensures WorkKept(t, v) && PlacedUnder(t, v, v[y].work) && HasWork(v, run[0], work + p.work(run[0].bits))
    ensures Sound(Heads(v)) && k < |v| && v[k] == t[k]
    ensures WorkLow(p, t) && work == t[k].work ==> WorkLow(p, v)
  {
    CleanTip(t, k);
    SumNext(p, run, 0);
    hide WorkLow;
    assert v[k] == t[k];
  }

  lemma {:induction false} UnderMore(t: seq<Row>, height: nat, work: nat, more: nat)
    requires ActiveUnder(t, height, work) && work <= more
    ensures ActiveUnder(t, height, more)
  {
  }

  /** The active rows the run went over have at most the sum below the tip's
      child. */
  lemma {:induction false} OverlapUnder(all: iset<Header>, p: Params, t: seq<Row>, k: nat, run: seq<Header>, m: nat, work: nat)
    requires Agree(all) && AllIn(all, run) && AllIn(all, Heads(t)) && GoodAt(p, t, k) && k < |t| && Sound(Heads(t))
    requires Linked(run) && m < |run| && run[m].prev == t[k].h.hash
    requires forall j :: 0 <= j < m ==> CarriedAt(t, run[j], work)
    ensures ActiveUnder(t, run[0].height, work)
  {
    HeadAt(t, k);
    assert Heads(t)[k] in all && run[m] in all;
    LinkedHeights(run, m);
    hide Sound, Path, Root, Agree, AllIn, Heads;
    forall i | 0 <= i < |t| && t[i].active && run[0].height <= t[i].h.height ensures t[i].work <= work {
      CleanRow(t, k, i);
      var j := t[i].h.height - run[0].height;
      LinkedHeights(run, j);
      var n :| 0 <= n < |t| && t[n].active && t[n].h == run[j] && t[n].work <= work;
      CleanRowsApart(t, k, i, n);
    }
  }

  /** A sum past the tip's work shows in the first row placed. */
  lemma {:induction false} FirstTooHigh(p: Params, t: seq<Row>, k: nat, v: seq<Row>, h: Header, work: nat)
    requires k < |t| && Sound(Heads(v)) && k < |v| && v[k] == t[k] && h.prev == t[k].h.hash
    requires t[k].work < work && HasWork(v, h, work + p.work(h.bits))
    ensures !WorkLow(p, v)
  {
    var z :| 0 <= z < |v| && v[z].h == h && v[z].work == work + p.work(h.bits);
    BelowIs(v, z, k);
  }

  // ── A push climbs ────────────────────────────────────────────────────────

  /** The same rows with the same works and the same tip. */
  ghost predicate SameWorks(t: seq<Row>, u: seq<Row>) {
    && |t| == |u| && ChainTip(t) == ChainTip(u)
    && forall i {:trigger u[i]} :: 0 <= i < |t| ==> u[i].h == t[i].h && u[i].work == t[i].work
  }

  lemma {:induction false} LowSame(p: Params, t: seq<Row>, u: seq<Row>)
    requires |t| == |u| && forall i {:trigger u[i]} :: 0 <= i < |t| ==> u[i].h == t[i].h && u[i].work == t[i].work
    ensures WorkLow(p, t) <==> WorkLow(p, u)
    ensures WorkKept(t, u)
  {
    assert Heads(t) == Heads(u);
    hide Heads, Parent;
    forall i | 0 <= i < |t| ensures WorkBelow(t, i) == WorkBelow(u, i) { BelowSame(t, u, i); }
    assert forall i :: 0 <= i < |t| ==> u[i].h == t[i].h;
  }

  lemma {:induction false} BelowSame(t: seq<Row>, u: seq<Row>, i: nat)
    requires |t| == |u| && forall i {:trigger u[i]} :: 0 <= i < |t| ==> u[i].h == t[i].h && u[i].work == t[i].work
    requires Heads(t) == Heads(u) && i < |t|
    ensures WorkBelow(t, i) == WorkBelow(u, i)
  {
  }

  lemma {:induction false} SameClimbs(p: Params, t: seq<Row>, u: seq<Row>, v: seq<Row>)
    requires Climbs(p, t, u) && SameWorks(u, v)
    ensures Climbs(p, t, v)
  {
    LowSame(p, u, v);
    hide WorkLow;
  }

  /** Whatever the canonicalization answers on a good store, works and tip stay. */
  lemma {:induction false} CanonicalizeWorks(p: Params, db: Db, run: seq<Header>)
    requires Good(p, db.rows) && Linked(run) && AllStored(db.rows, run)
    ensures SameWorks(db.rows, CanonicalizePushed(db, run).0.rows)
  {
    if run == [] {
      CanonicalizeNone(db);
    } else {
      assert Stored(db.rows, run[0]);
      var k: nat :| GoodAt(p, db.rows, k);
      CanonicalizeWorksAt(p, db, k, run);
    }
  }

  lemma {:induction false} CanonicalizeWorksAt(p: Params, db: Db, k: nat, run: seq<Header>)
    requires Good(p, db.rows) && GoodAt(p, db.rows, k) && Linked(run) && AllStored(db.rows, run) && run != []
    ensures SameWorks(db.rows, CanonicalizePushed(db, run).0.rows)
  {
    if AllSole(db.rows, run) {
      GoodIsGrown(p, db.rows, k);
      AllSoleActive(db.rows, run);
      hide *;
      CanonicalizeFinishes(p, db, k, k, run);
      FinishedSame(p, db.rows, CanonicalizePushed(db, run).0.rows, k, run[0].height, run[|run| - 1].height + 1);
    } else {
      NeverActivatesOnClean(db, k, run);
      hide Good, AllSole;
    }
  }

  lemma {:induction false} FinishedSame(p: Params, t: seq<Row>, u: seq<Row>, k: nat, lo: nat, hi: nat)
    requires GoodAt(p, t, k) && GoodAt(p, u, k) && Finished(t, u, k, lo, hi)
    ensures SameWorks(t, u)
  {
    CleanTip(t, k);
    CleanTip(u, k);
    hide Sound, Path, Root;
    FinishedHeads(t, u, k, lo, hi);
  }

  // ── One header at a time ─────────────────────────────────────────────────

  lemma {:induction false} AllClimbLast(p: Params, db: Db, txs: seq<seq<Stmt>>)
    requires AllClimb(p, db, txs) && WorkLow(p, db.rows)
    ensures Climbs(p, db.rows, RunAll(db, txs).rows)
    decreases |txs|
  {
    hide WorkKept, Rises, Run, WorkLow;
    if txs == [] {
      ClimbsStay(p, db.rows);
    } else {
      AllClimbLast(p, Run(db, txs[0]), txs[1..]);
      ClimbsOn(p, db.rows, Run(db, txs[0]).rows, RunAll(db, txs).rows);
    }
  }

  lemma {:induction false} EachNone(all: iset<Header>, p: Params, db: Db)
    requires Agree(all) && AllIn(all, []) && Sound(Heads(db.rows)) && AllIn(all, Heads(db.rows))
    ensures InsertEach(all, p, db, []).0 == db
  {
  }

  lemma {:induction false} EachClimbs(all: iset<Header>, p: Params, db: Db, run: seq<Header>)
    requires Agree(all) && AllIn(all, run) && AllIn(all, Heads(db.rows)) && Good(p, db.rows) && p.Ascending()
    requires Sound(Heads(db.rows)) && WorkLow(p, db.rows)
    ensures Climbs(p, db.rows, InsertEach(all, p, db, run).0.rows)
    decreases |run|
  {
    hide *;
    if run == [] {
      EachNone(all, p, db);
      ClimbsStay(p, db.rows);
    } else {
      EachStep(all, p, db, run);
      var out := InsertHeader(p, db, run[0]);
      var db1 := RunAll(db, out.txs);
      InsertClimbs(p, db, run[0]);
      AllClimbLast(p, db, out.txs);
      if !Failed(out.result) {
        LowOf(p, db.rows, db1.rows);
        EachClimbs(all, p, db1, run[1..]);
        ClimbsOn(p, db.rows, db1.rows, InsertEach(all, p, db1, run[1..]).0.rows);
      }
    }
  }

  lemma {:induction false} LowOf(p: Params, t: seq<Row>, u: seq<Row>)
    requires Climbs(p, t, u)
    ensures WorkLow(p, u)
  {
  }

  // ── The push ─────────────────────────────────────────────────────────────

  /** A push the stored works stay sums under, readable before the call: it is
      refused, or goes one header at a time, or its sum meets the tip. */
  ghost predicate Accumulates(p: Params, t: seq<Row>, run: seq<Header>)
    requires Sound(Heads(t))
  {
    || run == [] || JudgeRun(p, t, run).Some? || Competes(t, run) || ChainTip(t).None?
    || SumsMeet(p, t, ChainTip(t).value, run, RunWork(t, run))
  }

  lemma {:induction false} PushLiveClimbs(all: iset<Header>, p: Params, db: Db, run: seq<Header>)
    requires Agree(all) && AllIn(all, run) && AllIn(all, Heads(db.rows)) && Good(p, db.rows) && p.Ascending()
    requires Sound(Heads(db.rows)) && WorkLow(p, db.rows) && Linked(run)
    ensures var (after, result) := InsertEach(all, p, db, run);
            && Climbs(p, db.rows, after.rows)
            && (!Failed(result) ==> Climbs(p, db.rows, CanonicalizePushed(after, run).0.rows))
  {
    hide *;
    EachKeepsClean(all, p, db, run);
    EachClimbs(all, p, db, run);
    var (after, result) := InsertEach(all, p, db, run);
    if !Failed(result) {
      CarriedGood(all, p, db, after);
      HeadsStored(after.rows, run);
      CanonicalizeWorks(p, after, run);
      SameClimbs(p, db.rows, after.rows, CanonicalizePushed(after, run).0.rows);
    }
  }

  /** A served bulk push on a clean store: the table after it. */
  ghost predicate BulkServed(p: Params, db: Db, k: nat, run: seq<Header>, y: nat, u: seq<Row>)
    requires k < |db.rows| && run != []
  {
    var v := InsertBulk(p, db, run).rows;
    && BulkDone(p, db.rows, k, run, v, y) && GoodAt(p, u, y)
    && Finished(v, u, y, run[0].height, run[|run| - 1].height + 1)
  }

  lemma {:induction false} PushBulkWorks(all: iset<Header>, p: Params, db: Db, k: nat, run: seq<Header>) returns (y: nat)
    requires Agree(all) && AllIn(all, run) && AllIn(all, Heads(db.rows))
    requires GoodAt(p, db.rows, k) && LinksTrue(db.rows) && k < |db.rows| && Sound(Heads(db.rows))
    requires run != [] && StandsOnStored(db.rows, run) && JudgeRun(p, db.rows, run).None? && !Competes(db.rows, run)
    requires WorkLow(p, db.rows)
    ensures IngestPushed(all, p, db, run).1 == Some(Served)
    ensures BulkServed(p, db, k, run, y, IngestPushed(all, p, db, run).0.rows)
    ensures WorkLow(p, IngestPushed(all, p, db, run).0.rows) <==> SumsMeet(p, db.rows, k, run, RunWork(db.rows, run))
  {
    hide *;
    JudgedLinked(p, db.rows, run);
    y := BulkWorks(all, p, db, k, run);
    var mid := InsertBulk(p, db, run);
    DoneGrown(p, db.rows, k, run, mid.rows, y);
    CanonicalizeFinishes(p, mid, k, y, run);
    IngestBulk(all, p, db, run);
    var u := CanonicalizePushed(mid, run).0.rows;
    FinishedHeads(mid.rows, u, y, run[0].height, run[|run| - 1].height + 1);
    LowSame(p, mid.rows, u);
    ServedIs(p, db, k, run, y, u);
  }

  lemma {:induction false} ServedIs(p: Params, db: Db, k: nat, run: seq<Header>, y: nat, u: seq<Row>)
    requires k < |db.rows| && run != [] && BulkDone(p, db.rows, k, run, InsertBulk(p, db, run).rows, y)
    requires GoodAt(p, u, y) && Finished(InsertBulk(p, db, run).rows, u, y, run[0].height, run[|run| - 1].height + 1)
    ensures BulkServed(p, db, k, run, y, u)
  {
    hide BulkDone, GoodAt, Finished, InsertBulk;
  }

  lemma {:induction false} DoneGrown(p: Params, t: seq<Row>, k: nat, run: seq<Header>, v: seq<Row>, y: nat)
    requires k < |t| && run != [] && BulkDone(p, t, k, run, v, y)
    ensures Grown(p, v, k, y) && AllActive(v, run)
  {
    hide Grown, AllActive, WorkKept, PlacedUnder, ActiveUnder, KeepsActive, SumWork;
  }

  lemma {:induction false} ServedRises(p: Params, db: Db, k: nat, run: seq<Header>, y: nat, u: seq<Row>)
    requires k < |db.rows| && run != [] && GoodAt(p, db.rows, k) && BulkServed(p, db, k, run, y, u)
    ensures WorkKept(db.rows, u) && Rises(db.rows, u)
  {
    var v := InsertBulk(p, db, run).rows;
    CleanTip(db.rows, k);
    CleanTip(u, y);
    hide Sound, Path, Root, Grown, AllActive, ActiveUnder, PlacedUnder, InsertBulk, CleanAt, ChainTip;
    FinishedHeads(v, u, y, run[0].height, run[|run| - 1].height + 1);
    WorkKeptFinished(db.rows, v, u);
  }

  lemma {:induction false} WorkKeptFinished(t: seq<Row>, v: seq<Row>, u: seq<Row>)
    requires WorkKept(t, v) && |u| == |v| && forall i :: 0 <= i < |v| ==> u[i].work == v[i].work && u[i].h == v[i].h
    ensures WorkKept(t, u)
  {
  }

  /** A push on a good store that stands on a stored row: no stored work falls,
      the tip's work rises strictly when the tip changes, whatever was pushed;
      and the stored works stay within their parents' exactly when the push
      accumulates. */
  lemma {:induction false} PushClimbs(all: iset<Header>, p: Params, db: Db, run: seq<Header>)
    requires Inv(all, p, db) && Allowed(all, db, PushCall(run)) && WorkLow(p, db.rows)
    ensures Sound(Heads(db.rows))
    ensures var u := After(all, p, db, PushCall(run)).rows;
            && WorkKept(db.rows, u) && Rises(db.rows, u)
            && (WorkLow(p, u) <==> Accumulates(p, db.rows, run))
  {
    GoodSound(p, db.rows);
    hide Good, Sound, JudgeRun, Competes, SumsMeet, WorkLow, Heads, InsertEach, CanonicalizePushed, InsertBulk,
         Agree, StandsOnStored, BulkStmts, Run, WorkKept, Rises, ChainTip;
    ClimbsStay(p, db.rows);
    if run == [] {
      CanonicalizeNone(db);
    } else if JudgeRun(p, db.rows, run).None? {
      if Competes(db.rows, run) {
        JudgedLinked(p, db.rows, run);
        PushLiveClimbs(all, p, db, run);
      } else {
        PushBulkClimbs(all, p, db, run);
      }
    }
  }

  lemma {:induction false} PushBulkClimbs(all: iset<Header>, p: Params, db: Db, run: seq<Header>)
    requires Agree(all) && AllIn(all, run) && AllIn(all, Heads(db.rows)) && Good(p, db.rows) && Sound(Heads(db.rows))
    requires run != [] && StandsOnStored(db.rows, run) && JudgeRun(p, db.rows, run).None? && !Competes(db.rows, run)
    requires WorkLow(p, db.rows)
    ensures var u := IngestPushed(all, p, db, run).0.rows;
            && WorkKept(db.rows, u) && Rises(db.rows, u)
            && ChainTip(db.rows).Some?
            && (WorkLow(p, u) <==> SumsMeet(p, db.rows, ChainTip(db.rows).value, run, RunWork(db.rows, run)))
  {
    var k := TipOf(p, db.rows, run);
    hide *;
    var y := PushBulkWorks(all, p, db, k, run);
    ServedRises(p, db, k, run, y, IngestPushed(all, p, db, run).0.rows);
  }

  lemma {:induction false} TipOf(p: Params, t: seq<Row>, run: seq<Header>) returns (k: nat)
    requires Good(p, t) && run != [] && StandsOnStored(t, run)
    ensures k < |t| && GoodAt(p, t, k) && LinksTrue(t) && ChainTip(t) == Some(k)
  {
    var q := Find(Heads(t), run[0].prev);
    assert q.value < |t|;
    k :| GoodAt(p, t, k);
    CleanTip(t, k);
  }

  // ── Pushes that accumulate ───────────────────────────────────────────────

  /** A push that stands on the tip accumulates. */
  lemma {:induction false} TipPushAccumulates(p: Params, t: seq<Row>, k: nat, run: seq<Header>)
    requires CleanAt(t, k) && Sound(Heads(t)) && k < |t| && run != [] && run[0].prev == t[k].h.hash
    ensures Accumulates(p, t, run)
  {
    CleanTip(t, k);
    HeadAt(t, k);
    SameRowAs(t, Find(Heads(t), run[0].prev).value, k);
    hide Sound, JudgeRun, Competes, Heads;
  }

  /** Every active row's stored work is its parent's plus its own. */
  ghost predicate ActiveSums(p: Params, t: seq<Row>) {
    forall i, q :: 0 <= i < |t| && 0 <= q < |t| && t[i].active && t[i].h.prev == t[q].h.hash
      ==> t[i].work == t[q].work + p.work(t[i].h.bits)
  }

  /** Where the active works are sums, as they are until an orphan with children
      is relinked, every push accumulates. */
  lemma {:induction false} SumsAccumulate(all: iset<Header>, p: Params, db: Db, run: seq<Header>)
    requires Inv(all, p, db) && Sound(Heads(db.rows)) && Allowed(all, db, PushCall(run)) && ActiveSums(p, db.rows)
    ensures Accumulates(p, db.rows, run)
  {
    var t := db.rows;
    if run != [] && JudgeRun(p, t, run).None? && !Competes(t, run) {
      JudgedLinked(p, t, run);
      var k := TipOf(p, t, run);
      var b := Find(Heads(t), run[0].prev).value;
      hide Sound, JudgeRun, Competes, SumsMeet, GoodAt, Good, Heads;
      RunOnChain(all, p, t, k, run);
      SumsFrom(p, t, k, run, RunWork(t, run), b);
    }
  }

  lemma {:induction false} SumsFrom(p: Params, t: seq<Row>, k: nat, run: seq<Header>, work: nat, b: nat)
    requires Sound(Heads(t)) && k < |t| && StandsOn(t, k, run) && Linked(run) && ActiveSums(p, t)
    requires run != [] ==> b < |t| && t[b].h.hash == run[0].prev && t[b].work == work
    ensures SumsMeet(p, t, k, run, work)
    decreases |run|
  {
    if run != [] {
      if run[0].prev == t[k].h.hash {
        SameRowAs(t, b, k);
      } else {
        var i :| 0 <= i < |t| && t[i].active && t[i].h == run[0];
        hide Sound, Heads;
        assert t[i].work == t[b].work + p.work(t[i].h.bits);
        SumsFrom(p, t, k, run[1..], work + p.work(run[0].bits), i);
      }
    }
  }
}
