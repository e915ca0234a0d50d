/** What the bulk path does to a clean store: every header of the run above the
    tip becomes the next active row, and the tip is set last. */
module Growth {
  import opened Wrappers
  import opened Headers
  import opened HeaderTable
  import opened CleanStore
  import opened Live
  import opened Bulk

  /** One header of a run written: a stored inactive row is activated with the
      run's work where nothing is active at its height, a new one is appended
      active, any other is left as it stands. */
  ghost function Place(t: seq<Row>, h: Header, work: nat): seq<Row> {
    match Find(Heads(t), h.hash)
    case None => t + [Row(h, None, true, false, work)]
    case Some(i) =>
      if !t[i].active && (forall o :: 0 <= o < |t| && t[o].active ==> t[o].h.height != h.height)
      then t[i := t[i].(active := true, work := work)] else t
  }

  ghost function PlaceRun(p: Params, t: seq<Row>, run: seq<Header>, work: nat): seq<Row>
    decreases |run|
  {
    if run == [] then t
    else PlaceRun(p, Place(t, run[0], work + p.work(run[0].bits)), run[1..], work + p.work(run[0].bits))
  }

  function SumWork(p: Params, run: seq<Header>): nat {
    if run == [] then 0 else p.work(run[0].bits) + SumWork(p, run[1..])
  }

  lemma {:induction false} SumNext(p: Params, run: seq<Header>, m: nat)
    requires run != [] && m < |run|
    ensures SumWork(p, run[..0]) == 0
    ensures SumWork(p, run[..m + 1]) == p.work(run[0].bits) + SumWork(p, run[1..][..m])
    ensures SumWork(p, run) == p.work(run[0].bits) + SumWork(p, run[1..])
  {
    assert run[..m + 1][1..] == run[1..][..m];
  }

  lemma {:induction false} SumSplit(p: Params, run: seq<Header>, m: nat)
    requires m <= |run|
    ensures SumWork(p, run) == SumWork(p, run[..m]) + SumWork(p, run[m..])
    decreases m
  {
    if m == 0 {
      assert run[0..] == run && run[..0] == [];
    } else {
      SumNext(p, run, m - 1);
      SumSplit(p, run[1..], m - 1);
      assert run[1..][m - 1..] == run[m..];
    }
  }

  lemma {:induction false} SumNone(p: Params)
    ensures SumWork(p, []) == 0
  {
  }

  ghost predicate Distinct(run: seq<Header>) {
    forall i, j :: 0 <= i < j < |run| ==> run[i].hash != run[j].hash
  }

  /** A header's row is stored inactive in one table exactly when it is in the
      other. */
  ghost predicate SameStanding(t: seq<Row>, u: seq<Row>, run: seq<Header>) {
    forall i :: 0 <= i < |run| ==> (HeldInactive(t, run[i].hash) <==> HeldInactive(u, run[i].hash))
  }

  /** The statements of one header are its placement. */
  lemma {:induction false} PlaceStmts(db: Db, h: Header, work: nat)
    requires Sound(Heads(db.rows))
    ensures Exec(Exec(db, ActivateStored(h.hash, work, h.height)), Insert(Row(h, None, true, false, work))) ==
            db.(rows := Place(db.rows, h, work))
    ensures !HeldInactive(db.rows, h.hash) ==>
            Exec(db, Insert(Row(h, None, true, false, work))) == db.(rows := Place(db.rows, h, work))
  {
    hide Sound;
    var t := db.rows;
    var e := Exec(db, ActivateStored(h.hash, work, h.height));
    assert Heads(e.rows) == Heads(t);
    match Find(Heads(t), h.hash) {
      case None =>
        assert forall i :: 0 <= i < |t| ==> Heads(t)[i].hash != h.hash;
        assert e.rows == t;
      case Some(i) =>
        forall j | 0 <= j < |t| ensures t[j].h.hash == h.hash ==> j == i {
          SoundPair(Heads(t), j, i);
        }
        assert e.rows == Place(t, h, work);
    }
  }

  /** Placing one header leaves the standing of the others. */
  lemma {:induction false} PlaceStanding(t: seq<Row>, h: Header, work: nat, other: Hash)
    requires Sound(Heads(t)) && other != h.hash
    ensures HeldInactive(Place(t, h, work), other) <==> HeldInactive(t, other)
  {
    hide Sound;
    var u := Place(t, h, work);
    match Find(Heads(t), h.hash) {
      case None =>
        forall i | 0 <= i < |u| && u[i].h.hash == other ensures i < |t| && u[i] == t[i] { }
        assert forall i :: 0 <= i < |t| ==> u[i] == t[i];
      case Some(n) =>
        assert t[n].h.hash == h.hash;
        assert |u| == |t| && forall i :: 0 <= i < |t| && i != n ==> u[i] == t[i];
        assert u[n].h == t[n].h;
    }
  }

  lemma {:induction false} PlaceSound(t: seq<Row>, h: Header, work: nat)
    requires Sound(Heads(t)) && Admissible(Heads(t), h)
    ensures var u := Heads(Place(t, h, work));
            Sound(u) && (u == Heads(t) || u == Heads(t) + [h])
  {
    hide Sound, Fits;
    var u := Place(t, h, work);
    match Find(Heads(t), h.hash) {
      case None =>
        assert Heads(u) == Heads(t) + [h];
        SoundAppend(Heads(t), h);
      case Some(n) =>
        assert forall i :: 0 <= i < |t| ==> u[i].h == t[i].h;
        assert Heads(u) == Heads(t);
    }
  }

  lemma {:induction false} RestStanding(t0: seq<Row>, t: seq<Row>, run: seq<Header>, work: nat)
    requires Sound(Heads(t)) && run != [] && Distinct(run) && SameStanding(t0, t, run)
    ensures SameStanding(t0, Place(t, run[0], work), run[1..]) && Distinct(run[1..])
  {
    hide Sound, Place, HeldInactive;
    forall i | 0 <= i < |run| - 1
      ensures HeldInactive(t0, run[1..][i].hash) <==> HeldInactive(Place(t, run[0], work), run[1..][i].hash)
    {
      PlaceStanding(t, run[0], work, run[i + 1].hash);
    }
  }

  lemma {:induction false} RunStep(db: Db, both: bool, act: Stmt, ins: Stmt, rest: seq<Stmt>)
    ensures Run(db, (if both then [act] else []) + [ins] + rest) ==
            Run(if both then Exec(Exec(db, act), ins) else Exec(db, ins), rest)
  {
    hide Exec;
    RunTwo(db, act, ins);
    RunOne(db, ins);
    RunAppend(db, [act, ins], rest);
    RunAppend(db, [ins], rest);
    assert [act] + [ins] + rest == [act, ins] + rest;
    assert [] + [ins] + rest == [ins] + rest;
  }

  /** The table after the first header of a run, and what is left to place. */
  ghost function AfterFirst(p: Params, db: Db, run: seq<Header>, work: nat): Db
    requires run != []
  {
    db.(rows := Place(db.rows, run[0], work + p.work(run[0].bits)))
  }

  /** The state after one header of the run meets what the state before met. */
  lemma {:induction false} PlaceKeeps(all: iset<Header>, p: Params, t0: seq<Row>, db: Db, run: seq<Header>, work: nat)
    requires Agree(all) && AllIn(all, run) && AllIn(all, Heads(db.rows)) && Sound(Heads(db.rows))
    requires run != [] && Distinct(run) && SameStanding(t0, db.rows, run)
    ensures var u := AfterFirst(p, db, run, work).rows;
            AllIn(all, Heads(u)) && Sound(Heads(u)) && SameStanding(t0, u, run[1..])
    ensures Distinct(run[1..]) && AllIn(all, run[1..])
  {
    hide Sound, Place, Heads, SameStanding, Distinct;
    var w := work + p.work(run[0].bits);
    RestStanding(t0, db.rows, run, w);
    assert run[0] in all;
    AgreeAdmits(all, Heads(db.rows), run[0]);
    PlaceSound(db.rows, run[0], w);
  }

  /** The statements of the first header of a run. */
  lemma {:induction false} BulkStep(p: Params, t0: seq<Row>, db: Db, run: seq<Header>, work: nat)
    requires Sound(Heads(db.rows)) && run != []
    requires SameStanding(t0, db.rows, run)
    ensures Run(db, BulkStmts(p, t0, run, work)) ==
            Run(AfterFirst(p, db, run, work), BulkStmts(p, t0, run[1..], work + p.work(run[0].bits)))
  {
    hide Sound, Run, Place, Exec, HeldInactive;
    var h := run[0];
    var w := work + p.work(h.bits);
    PlaceStmts(db, h, w);
    RunStep(db, HeldInactive(t0, h.hash), ActivateStored(h.hash, w, h.height),
            Insert(Row(h, None, true, false, w)), BulkStmts(p, t0, run[1..], w));
  }

  lemma {:induction false} PlaceRunStep(p: Params, db: Db, run: seq<Header>, work: nat)
    requires run != []
    ensures db.(rows := PlaceRun(p, db.rows, run, work)) ==
            AfterFirst(p, db, run, work).(rows :=
              PlaceRun(p, AfterFirst(p, db, run, work).rows, run[1..], work + p.work(run[0].bits)))
  {
    hide Place;
  }

  /** The bulk statements place the run, header by header. */
  lemma {:induction false} BulkPlaces(all: iset<Header>, p: Params, t0: seq<Row>, db: Db, run: seq<Header>, work: nat)
    requires Agree(all) && AllIn(all, run) && AllIn(all, Heads(db.rows)) && Sound(Heads(db.rows))
    requires Distinct(run) && SameStanding(t0, db.rows, run)
    ensures Run(db, BulkStmts(p, t0, run, work)) == db.(rows := PlaceRun(p, db.rows, run, work))
    decreases |run|
  {
    hide *;
    if run == [] {
      PlaceNone(p, t0, db, work);
    } else {
      PlaceRunStep(p, db, run, work);
      BulkStep(p, t0, db, run, work);
      PlaceKeeps(all, p, t0, db, run, work);
      BulkPlaces(all, p, t0, AfterFirst(p, db, run, work), run[1..], work + p.work(run[0].bits));
    }
  }

  lemma {:induction false} PlaceNone(p: Params, t0: seq<Row>, db: Db, work: nat)
    ensures Run(db, BulkStmts(p, t0, [], work)) == db.(rows := PlaceRun(p, db.rows, [], work))
  {
    RunNone(db);
  }

  // ── Growing a clean store ────────────────────────────────────────────────

  /** Active are exactly the rows of the path of `x`, a descendant of the tip
      `k` or the tip itself: the store between the bulk rows and the tip's move. */
  ghost predicate Grown(p: Params, t: seq<Row>, k: nat, x: nat) {
    && Sound(Heads(t)) && LinksTrue(t) && k < |t| && x < |t| && k in Path(Heads(t), x)
    && (forall i {:trigger t[i].tip} :: 0 <= i < |t| ==> (t[i].tip <==> i == k))
    && (forall i {:trigger t[i].active} :: 0 <= i < |t| ==> (t[i].active <==> i in Path(Heads(t), x)))
    && Vouched(p, t[Root(Heads(t), x)].h)
  }

  lemma {:induction false} GoodIsGrown(p: Params, t: seq<Row>, k: nat)
    requires GoodAt(p, t, k) && LinksTrue(t)
    ensures Grown(p, t, k, k)
  {
    PathSelf(Heads(t), k);
  }

  lemma {:induction false} GrownHeights(p: Params, t: seq<Row>, k: nat, x: nat, i: nat)
    requires Grown(p, t, k, x) && i < |t| && t[i].active
    ensures t[Root(Heads(t), x)].h.height <= t[i].h.height <= t[x].h.height
    ensures t[i].h.height == t[x].h.height ==> i == x
  {
    var hs := Heads(t);
    PathAt(hs, x, i);
    var path := Path(hs, x);
    assert path[|path| - 1] == Root(hs, x);
  }

  /** A header the active chain holds already changes nothing. */
  lemma {:induction false} PlaceActive(t: seq<Row>, h: Header, work: nat, i: nat)
    requires Sound(Heads(t)) && i < |t| && t[i].h == h && t[i].active
    ensures Place(t, h, work) == t
  {
    assert Heads(t)[i].hash == h.hash;
    SoundPair(Heads(t), Find(Heads(t), h.hash).value, i);
  }

  /** The heights of a header standing on the top of a grown store. */
  lemma {:induction false} StandsAbove(p: Params, t: seq<Row>, k: nat, x: nat, h: Header)
    requires Grown(p, t, k, x) && h.prev == t[x].h.hash && Admissible(Heads(t), h)
    ensures h.height == t[x].h.height + 1
    ensures Root(Heads(t), x) < |t| && t[Root(Heads(t), x)].h.height < h.height
    ensures forall o :: 0 <= o < |t| && t[o].active ==> t[o].h.height < h.height
  {
    var hs := Heads(t);
    if h in hs {
      var n :| 0 <= n < |hs| && hs[n] == h;
      SoundPair(hs, n, x);
    } else {
      assert hs[x].hash == h.prev;
    }
    hide Sound, Fits, Path, Root;
    PathSelf(hs, x);
    GrownHeights(p, t, k, x, x);
    forall o | 0 <= o < |t| && t[o].active ensures t[o].h.height < h.height {
      GrownHeights(p, t, k, x, o);
    }
  }

  /** A header standing on `x`, new to the store. */
  lemma {:induction false} GrowNew(p: Params, t: seq<Row>, k: nat, x: nat, h: Header, work: nat)
    requires Grown(p, t, k, x) && Find(Heads(t), h.hash).None? && Fits(Heads(t), h)
    requires h.prev == t[x].h.hash
    ensures var u := Place(t, h, work);
            Grown(p, u, k, |t|) && u[|t|].h == h && u == t + [Row(h, None, true, false, work)]
  {
    hide Sound, Fits, Path, Root, Heads;
    var n := |t|;
    var row := Row(h, None, true, false, work);
    var u := t + [row];
    StandsAbove(p, t, k, x, h);
    AppendPath(t, x, row);
    AppendLinks(t, row);
    RootLow(t, x, row);
    var hs := Heads(u);
    assert u[x] == t[x] && u[n] == row;
    HeadAt(u, x);
    HeadAt(u, n);
    ParentIs(hs, n, x);
    PathCons(hs, n, x);
    GrownFlags(p, t, k, x, row);
  }

  /** The flags of a grown table with an active row appended. */
  lemma {:induction false} GrownFlags(p: Params, t: seq<Row>, k: nat, x: nat, row: Row)
    requires Grown(p, t, k, x) && row.active && !row.tip
    requires Sound(Heads(t + [row])) && Path(Heads(t + [row]), x) == Path(Heads(t), x)
    requires forall i :: i in Path(Heads(t + [row]), |t|) <==> i == |t| || i in Path(Heads(t + [row]), x)
    ensures var u := t + [row];
            && (forall i {:trigger u[i].tip} :: 0 <= i < |u| ==> (u[i].tip <==> i == k))
            && (forall i {:trigger u[i].active} :: 0 <= i < |u| ==> (u[i].active <==> i in Path(Heads(u), |t|)))
            && k in Path(Heads(u), |t|)
  {
    hide Sound, Path, Root, Heads;
    var u := t + [row];
    assert forall i :: 0 <= i < |t| ==> u[i] == t[i];
  }

  /** A header standing on `x`, stored inactive. */
  lemma {:induction false} GrowStored(p: Params, t: seq<Row>, k: nat, x: nat, h: Header, work: nat, n: nat)
    requires Grown(p, t, k, x) && n < |t| && t[n].h == h && h.prev == t[x].h.hash
    ensures var u := Place(t, h, work);
            !t[n].active && n != k && Grown(p, u, k, n) && u == t[n := t[n].(active := true, work := work)]
  {
    PlaceIsUpdate(p, t, k, x, h, work, n);
    hide Grown, Place;
    GrowUpdate(p, t, k, x, n, work);
  }

  /** The path of a row that names `x`. */
  lemma {:induction false} ChildPath(t: seq<Row>, x: nat, n: nat)
    requires Sound(Heads(t)) && x < |t| && n < |t| && t[n].h.prev == t[x].h.hash
    ensures Root(Heads(t), n) == Root(Heads(t), x)
    ensures forall i :: i in Path(Heads(t), n) <==> i == n || i in Path(Heads(t), x)
  {
    hide Sound, Path, Root;
    ParentIs(Heads(t), n, x);
    PathCons(Heads(t), n, x);
  }

  lemma {:induction false} GrowUpdate(p: Params, t: seq<Row>, k: nat, x: nat, n: nat, work: nat)
    requires Grown(p, t, k, x) && n < |t| && t[n].h.prev == t[x].h.hash
    ensures Grown(p, t[n := t[n].(active := true, work := work)], k, n)
  {
    hide Sound, Path, Root, Heads;
    var u := t[n := t[n].(active := true, work := work)];
    UpdatedHeads(t, n, u[n]);
    ChildPath(t, x, n);
    UpdatedLinks(t, n, u[n]);
    UpdatedFlags(t, k, x, n, u);
  }

  lemma {:induction false} UpdatedHeads(t: seq<Row>, n: nat, row: Row)
    requires n < |t| && row.h == t[n].h
    ensures Heads(t[n := row]) == Heads(t)
    ensures forall i {:trigger t[n := row][i]} :: 0 <= i < |t| ==> t[n := row][i].h == t[i].h
  {
  }

  lemma {:induction false} UpdatedFlags(t: seq<Row>, k: nat, x: nat, n: nat, u: seq<Row>)
    requires Sound(Heads(t)) && x < |t| && n < |t| && |u| == |t|
    requires forall i {:trigger t[i].tip} :: 0 <= i < |t| ==> (t[i].tip <==> i == k)
    requires forall i {:trigger t[i].active} :: 0 <= i < |t| ==> (t[i].active <==> i in Path(Heads(t), x))
    requires forall i :: i in Path(Heads(t), n) <==> i == n || i in Path(Heads(t), x)
    requires forall i {:trigger u[i]} :: 0 <= i < |t| ==>
               u[i].tip == t[i].tip && u[i].active == (t[i].active || i == n)
    ensures forall i {:trigger u[i].tip} :: 0 <= i < |u| ==> (u[i].tip <==> i == k)
    ensures forall i {:trigger u[i].active} :: 0 <= i < |u| ==> (u[i].active <==> i in Path(Heads(t), n))
  {
    hide Sound, Path, Heads;
    forall i | 0 <= i < |u| ensures u[i].tip <==> i == k { assert u[i].tip == t[i].tip; }
  }

  lemma {:induction false} UpdatedLinks(t: seq<Row>, n: nat, row: Row)
    requires LinksTrue(t) && n < |t| && row.h == t[n].h && row.link == t[n].link
    ensures LinksTrue(t[n := row])
  {
    var u := t[n := row];
    forall i | 0 <= i < |u| && u[i].link.Some? ensures u[i].link.value < |u| && u[u[i].link.value].h.hash == u[i].h.prev {
      assert t[i].link == u[i].link;
    }
  }

  lemma {:induction false} PlaceIsUpdate(p: Params, t: seq<Row>, k: nat, x: nat, h: Header, work: nat, n: nat)
    requires Grown(p, t, k, x) && n < |t| && t[n].h == h && h.prev == t[x].h.hash
    ensures !t[n].active && n != k && Place(t, h, work) == t[n := t[n].(active := true, work := work)]
  {
    hide Sound, Path, Root;
    HeadAt(t, n);
    assert h in Heads(t) by { assert Heads(t)[n] == h; }
    StandsAbove(p, t, k, x, h);
    SoundPair(Heads(t), Find(Heads(t), h.hash).value, n);
    assert !t[n].active;
  }

  // ── A whole run on a clean store ─────────────────────────────────────────

  /** The run's headers are active already up to some point, and from there on
      stand on the top row `x`. */
  ghost predicate StandsOn(t: seq<Row>, x: nat, run: seq<Header>)
    requires x < |t|
    decreases |run|
  {
    run == [] || run[0].prev == t[x].h.hash || (ActiveRow(t, run[0]) && StandsOn(t, x, run[1..]))
  }

  ghost predicate ActiveRow(t: seq<Row>, h: Header) {
    exists i :: 0 <= i < |t| && t[i].active && t[i].h == h
  }

  ghost predicate AllActive(t: seq<Row>, run: seq<Header>) {
    forall j :: 0 <= j < |run| ==> ActiveRow(t, run[j])
  }

  /** Rows stay, and active rows stay active. */
  ghost predicate Grows(t: seq<Row>, u: seq<Row>) {
    |t| <= |u| && forall i {:trigger u[i]} :: 0 <= i < |t| ==> u[i].h == t[i].h && (t[i].active ==> u[i].active)
  }

  lemma {:induction false} PlaceGrows(t: seq<Row>, h: Header, work: nat)
    ensures Grows(t, Place(t, h, work))
  {
  }

  lemma {:induction false} PlaceRunEmpty(p: Params, t: seq<Row>, work: nat)
    ensures PlaceRun(p, t, [], work) == t && Grows(t, t)
  {
  }

  lemma {:induction false} PlaceRunNext(p: Params, t: seq<Row>, run: seq<Header>, work: nat)
    requires run != []
    ensures var w := work + p.work(run[0].bits); PlaceRun(p, t, run, work) == PlaceRun(p, Place(t, run[0], w), run[1..], w)
  {
    hide Place;
  }

  lemma {:induction false} GrowsOn(t: seq<Row>, u: seq<Row>, v: seq<Row>)
    requires Grows(t, u) && Grows(u, v)
    ensures Grows(t, v)
  {
  }

  lemma {:induction false} PlaceRunGrows(p: Params, t: seq<Row>, run: seq<Header>, work: nat)
    ensures Grows(t, PlaceRun(p, t, run, work))
    decreases |run|
  {
    hide *;
    if run == [] {
      PlaceRunEmpty(p, t, work);
    } else {
      var w := work + p.work(run[0].bits);
      PlaceRunNext(p, t, run, work);
      PlaceGrows(t, run[0], w);
      PlaceRunGrows(p, Place(t, run[0], w), run[1..], w);
      GrowsOn(t, Place(t, run[0], w), PlaceRun(p, Place(t, run[0], w), run[1..], w));
    }
  }

  lemma {:induction false} GrowsActive(t: seq<Row>, u: seq<Row>, h: Header)
    requires Grows(t, u) && ActiveRow(t, h)
    ensures ActiveRow(u, h)
  {
    var i :| 0 <= i < |t| && t[i].active && t[i].h == h;
    assert u[i].active && u[i].h == h;
  }

  /** The new top row when a header standing on the top is placed. */
  lemma {:induction false} GrowOne(all: iset<Header>, p: Params, t: seq<Row>, k: nat, x: nat, h: Header, work: nat) returns (n: nat)
    requires Agree(all) && AllIn(all, Heads(t)) && h in all
    requires Grown(p, t, k, x) && h.prev == t[x].h.hash
    ensures n < |Place(t, h, work)| && Grown(p, Place(t, h, work), k, n)
    ensures Place(t, h, work)[n].h == h && Place(t, h, work)[n].work == work && Place(t, h, work)[n].active
  {
    AgreeAdmits(all, Heads(t), h);
    hide Sound, Path, Root, Fits, Grown, Place;
    match Find(Heads(t), h.hash) {
      case None =>
        n := |t|;
        GrowNew(p, t, k, x, h, work);
      case Some(i) =>
        n := i;
        HeadAt(t, i);
        GrowStored(p, t, k, x, h, work, i);
    }
  }

  /** The bulk path on a clean store: every header of the run ends active, the
      active rows are one path again, and the tip flag is where it was. */
  lemma {:induction false} GrowRun(all: iset<Header>, p: Params, t: seq<Row>, k: nat, x: nat, run: seq<Header>, work: nat)
    returns (y: nat)
    requires Agree(all) && AllIn(all, Heads(t)) && AllIn(all, run) && Linked(run)
    requires Grown(p, t, k, x) && StandsOn(t, x, run)
    ensures Grown(p, PlaceRun(p, t, run, work), k, y)
    ensures AllActive(PlaceRun(p, t, run, work), run)
    decreases |run|, 1
  {
    y := x;
    hide *;
    if run == [] {
      PlaceRunEmpty(p, t, work);
      NoneActive(t);
    } else {
      RunParts(all, p, t, k, x, run);
      var h := run[0];
      var w := work + p.work(h.bits);
      var u := Place(t, h, w);
      var z := x;
      if h.prev == t[x].h.hash {
        z := GrowOne(all, p, t, k, x, h, w);
        NextStands(u, z, run);
        GrowOneIn(all, p, t, h, w);
      } else {
        PlaceSame(t, h, w);
      }
      y := GrowRest(all, p, t, k, z, run, work);
    }
  }

  lemma {:induction false} NoneActive(t: seq<Row>)
    ensures AllActive(t, [])
  {
  }

  lemma {:induction false} RunParts(all: iset<Header>, p: Params, t: seq<Row>, k: nat, x: nat, run: seq<Header>)
    requires run != [] && AllIn(all, run) && Grown(p, t, k, x) && StandsOn(t, x, run)
    ensures run[0] in all && Sound(Heads(t)) && x < |t|
    ensures run[0].prev == t[x].h.hash || (ActiveRow(t, run[0]) && StandsOn(t, x, run[1..]))
  {
  }

  lemma {:induction false} NextStands(u: seq<Row>, z: nat, run: seq<Header>)
    requires run != [] && Linked(run) && z < |u| && u[z].h == run[0] && u[z].active
    ensures StandsOn(u, z, run[1..]) && ActiveRow(u, run[0])
  {
  }

  lemma {:induction false} PlaceSame(t: seq<Row>, h: Header, work: nat)
    requires Sound(Heads(t)) && ActiveRow(t, h)
    ensures Place(t, h, work) == t
  {
    var i :| 0 <= i < |t| && t[i].active && t[i].h == h;
    PlaceActive(t, h, work, i);
  }

  lemma {:induction false} GrowOneIn(all: iset<Header>, p: Params, t: seq<Row>, h: Header, work: nat)
    requires Agree(all) && AllIn(all, Heads(t)) && h in all && Sound(Heads(t))
    ensures AllIn(all, Heads(Place(t, h, work)))
  {
    hide Sound, Place;
    AgreeAdmits(all, Heads(t), h);
    PlaceSound(t, h, work);
  }

  lemma {:induction false} GrowRest(all: iset<Header>, p: Params, t: seq<Row>, k: nat, z: nat, run: seq<Header>, work: nat)
    returns (y: nat)
    requires Agree(all) && AllIn(all, run) && Linked(run) && run != []
    requires var u := Place(t, run[0], work + p.work(run[0].bits));
             AllIn(all, Heads(u)) && Grown(p, u, k, z) && StandsOn(u, z, run[1..]) && ActiveRow(u, run[0])
    ensures Grown(p, PlaceRun(p, t, run, work), k, y)
    ensures AllActive(PlaceRun(p, t, run, work), run)
    decreases |run|, 0
  {
    hide Place, Grown, Sound, StandsOn, ActiveRow, Heads, Agree;
    var w := work + p.work(run[0].bits);
    var u := Place(t, run[0], w);
    y := GrowRun(all, p, u, k, z, run[1..], w);
    PlaceRunGrows(p, u, run[1..], w);
    GrowsActive(u, PlaceRun(p, u, run[1..], w), run[0]);
    assert forall j :: 1 <= j < |run| ==> run[j] == run[1..][j - 1];
  }

  /** No active row differs from the run at its height. */
  ghost predicate NoRival(t: seq<Row>, run: seq<Header>) {
    forall i, j :: 0 <= i < |t| && 0 <= j < |run| && t[i].active && t[i].h.height == run[j].height
      ==> t[i].h.hash == run[j].hash
  }

  /** A run on the active chain of a clean store that replaces nothing. */
  lemma {:induction false} RunStands(all: iset<Header>, t: seq<Row>, k: nat, q: nat, run: seq<Header>)
    requires Agree(all) && AllIn(all, Heads(t)) && AllIn(all, run) && Linked(run)
    requires CleanAt(t, k) && q < |t| && t[q].active && NoRival(t, run)
    requires run != [] ==> run[0].prev == t[q].h.hash
    ensures StandsOn(t, k, run)
    decreases |run|
  {
    if run != [] && q != k {
      var i := RowAbove(all, t, k, q, run[0]);
      RunStands(all, t, k, i, run[1..]);
    }
  }

  /** The active row above an active row of a clean store that is not its tip. */
  lemma {:induction false} RowAbove(all: iset<Header>, t: seq<Row>, k: nat, q: nat, h: Header) returns (i: nat)
    requires Agree(all) && AllIn(all, Heads(t)) && h in all
    requires CleanAt(t, k) && q < |t| && t[q].active && q != k && h.prev == t[q].h.hash
    requires forall i :: 0 <= i < |t| && t[i].active && t[i].h.height == h.height ==> t[i].h.hash == h.hash
    ensures i < |t| && t[i].active && t[i].h == h
  {
    var hs := Heads(t);
    PathAt(hs, k, q);
    var d := hs[k].height - hs[q].height;
    assert Path(hs, k)[0] == k;
    i := Path(hs, k)[d - 1];
    assert i in Path(hs, k);
    assert hs[q] in all && hs[i] in all;
  }
}
