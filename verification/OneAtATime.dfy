/** Bulk acceptance equals one-at-a-time acceptance: a run the read-through
    judges on the tip of a clean store is taken by the bulk writer, and pushing
    it whole leaves the table pushing it header by header leaves
    (src/storage.rs:1314-1367, 1480-1541). */
module OneAtATime {
  import opened Wrappers
  import opened Headers
  import opened HeaderTable
  import opened CleanStore
  import opened Live
  import opened Bulk
  import opened Growth
  import opened Push
  import opened PushClean
  import opened RunWindow
  import opened Runs

  // ── The read-through's judgment ──────────────────────────────────────────

  datatype Judged = Passed | Turned(fault: Fault) | Unjudged

  ghost function JudgeLinks(p: Params, links: seq<Link>, run: seq<Header>): Judged
    requires forall j :: 0 <= j < |run| ==> 0 < run[j].height
    decreases |run|
  {
    if run == [] then Passed
    else
      match CheckContext(p, links, run[0])
      case None => JudgeLinks(p, links + [LinkOf(run[0])], run[1..])
      case Some(fault) => if fault.AncestryMissing? then Unjudged else Turned(fault)
  }

  /** `judge_above` (src/storage.rs:1314-1367). */
  ghost function JudgeAbove(p: Params, t: seq<Row>, run: seq<Header>): Judged
    requires Sound(Heads(t))
  {
    if run == [] then Unjudged
    else if exists i :: 0 <= i < |run| && !p.pow(run[i]) then Turned(HighHash)
    else if !Linked(run) then Turned(PrevNotFound)
    else
      match Find(Heads(t), run[0].prev)
      case None => Unjudged
      case Some(q) =>
        if !t[q].active || t[q].h.height + 1 != run[0].height then Unjudged
        else
          LinkedAbove(run);
          JudgeLinks(p, LoadWindow(t, q, WindowDepth(p, run)), run)
  }

  lemma {:induction false} LinkedAbove(run: seq<Header>)
    requires Linked(run) && run != [] && 0 < run[0].height
    ensures forall j :: 0 <= j < |run| ==> 0 < run[j].height
  {
    forall j | 0 <= j < |run| ensures 0 < run[j].height { LinkedHeights(run, j); }
  }

  /** The read-through and the writers agree on the context rules. */
  lemma {:induction false} JudgeLinksIsFault(p: Params, links: seq<Link>, run: seq<Header>, t: seq<Row>)
    requires forall j :: 0 <= j < |run| ==> 0 < run[j].height
    ensures JudgeLinks(p, links, run) == Passed <==> ContextFault(p, links, run, None, None, t).None?
    decreases |run|
  {
    if run != [] {
      hide CheckContext;
      assert forall j :: 0 <= j < |run| - 1 ==> run[1..][j] == run[j + 1];
      JudgeLinksIsFault(p, links + [LinkOf(run[0])], run[1..], t);
    }
  }

  lemma {:induction false} NoCheckpointAbove(list: seq<(nat, Hash)>, hs: seq<Header>, height: nat, tipHeight: nat)
    requires tipHeight <= height
    ensures CheckpointAbove(list, hs, height, tipHeight).None?
    decreases |list|
  {
    if list != [] && height < list[|list| - 1].0 {
      NoCheckpointAbove(list[..|list| - 1], hs, height, tipHeight);
    }
  }

  // ── A run that stands on the tip ─────────────────────────────────────────

  ghost predicate OnTip(p: Params, t: seq<Row>, k: nat, run: seq<Header>)
    requires Sound(Heads(t)) && k < |t|
  {
    && Linked(run) && (forall i :: 0 <= i < |run| ==> p.pow(run[i]))
    && (run != [] ==> run[0].prev == t[k].h.hash && run[0].height == t[k].h.height + 1)
    && ContextFault(p, AncestryLinks(t, k), run, None, None, t).None?
  }

  /** On the tip of a clean store the bulk writer's judgment is that of the whole
      stored ancestry. */
  lemma {:induction false} TipJudged(p: Params, t: seq<Row>, k: nat, run: seq<Header>)
    requires CleanAt(t, k) && Sound(Heads(t)) && k < |t| && run != []
    requires run[0].prev == t[k].h.hash && run[0].height == t[k].h.height + 1
    ensures JudgeRun(p, t, run).None? <==> OnTip(p, t, k, run)
  {
    hide Sound, ContextFault, LoadWindow, AncestryLinks, CheckpointAbove;
    FindIs(Heads(t), k, run[0].prev);
    CleanTip(t, k);
    NoCheckpointAbove(p.checkpoints, Heads(t), run[0].height, t[k].h.height);
    if Linked(run) {
      BulkWindowIsEnough(p, t, k, run, None);
    }
  }

  /** A run the read-through passes on the tip is accepted by the bulk writer. */
  lemma {:induction false} PassedIsAccepted(p: Params, t: seq<Row>, k: nat, run: seq<Header>)
    requires CleanAt(t, k) && Sound(Heads(t)) && k < |t|
    requires JudgeAbove(p, t, run) == Passed && run != [] && run[0].prev == t[k].h.hash
    ensures OnTip(p, t, k, run) && JudgeRun(p, t, run).None?
  {
    hide Sound, ContextFault, LoadWindow, AncestryLinks, JudgeLinks, JudgeRun;
    FindIs(Heads(t), k, run[0].prev);
    LinkedAbove(run);
    JudgeLinksIsFault(p, LoadWindow(t, k, WindowDepth(p, run)), run, t);
    BulkWindowIsEnough(p, t, k, run, None);
    TipJudged(p, t, k, run);
  }

  /** Nothing competes with a run above the tip. */
  lemma {:induction false} NoneCompetes(p: Params, t: seq<Row>, k: nat, run: seq<Header>)
    requires CleanAt(t, k) && Sound(Heads(t)) && k < |t| && run != []
    requires run[0].prev == t[k].h.hash && run[0].height == t[k].h.height + 1
    ensures !Competes(t, run) && StandsOnStored(t, run) && RunWork(t, run) == t[k].work
  {
    hide Sound;
    FindIs(Heads(t), k, run[0].prev);
    CleanTip(t, k);
  }

  // ── The table a push on the tip leaves ───────────────────────────────────

  /** A served push: its rows placed, linked, and the tip on the top row `y`. */
  ghost predicate Pushed(p: Params, db: Db, k: nat, run: seq<Header>, y: nat, out: (Db, Option<Verdict>))
    requires k < |db.rows| && run != []
  {
    var u := PlaceRun(p, db.rows, run, db.rows[k].work);
    && out.1 == Some(Served) && out.0.pending == db.pending && Grown(p, u, k, y) && AllActive(u, run)
    && Finished(u, out.0.rows, y, run[0].height, run[|run| - 1].height + 1)
    && GoodAt(p, out.0.rows, y) && LinksTrue(out.0.rows)
  }

  lemma {:induction false} PushedParts(p: Params, db: Db, k: nat, run: seq<Header>, y: nat, out: (Db, Option<Verdict>),
                                       lo: nat, hi: nat)
    requires k < |db.rows| && run != [] && Pushed(p, db, k, run, y, out)
    requires run[0].height == lo && run[|run| - 1].height + 1 == hi
    ensures out.1 == Some(Served) && out.0.pending == db.pending
    ensures Grown(p, PlaceRun(p, db.rows, run, db.rows[k].work), k, y)
    ensures AllActive(PlaceRun(p, db.rows, run, db.rows[k].work), run)
    ensures Finished(PlaceRun(p, db.rows, run, db.rows[k].work), out.0.rows, y, lo, hi)
    ensures GoodAt(p, out.0.rows, y) && LinksTrue(out.0.rows)
  {
    hide Grown, AllActive, Finished, GoodAt, LinksTrue, PlaceRun;
  }

  /** A push that stands on the tip: served, its rows placed, linked and the tip
      on the last of them. */
  lemma {:induction false} PushOnTip(all: iset<Header>, p: Params, db: Db, k: nat, run: seq<Header>) returns (y: nat)
    requires Agree(all) && AllIn(all, run) && AllIn(all, Heads(db.rows)) && Good(p, db.rows) && GoodAt(p, db.rows, k)
    requires Sound(Heads(db.rows)) && k < |db.rows| && run != [] && OnTip(p, db.rows, k, run)
    ensures Pushed(p, db, k, run, y, IngestPushed(all, p, db, run))
  {
    var t := db.rows;
    assert CleanAt(t, k);
    TipJudged(p, t, k, run);
    NoneCompetes(p, t, k, run);
    OnTipLinked(p, t, k, run);
    GoodLinks(p, t);
    hide *;
    y := BulkGrows(all, p, db, k, run);
    InsertBulkPlaces(all, p, db, run);
    CanonicalizeFinishes(p, InsertBulk(p, db, run), k, y, run);
    IngestBulk(all, p, db, run);
    PushedIs(p, db, k, run, y, InsertBulk(p, db, run), CanonicalizePushed(InsertBulk(p, db, run), run).0);
  }

  lemma {:induction false} PushedIs(p: Params, db: Db, k: nat, run: seq<Header>, y: nat, placed: Db, after: Db)
    requires k < |db.rows| && run != [] && placed == db.(rows := PlaceRun(p, db.rows, run, db.rows[k].work))
    requires Grown(p, placed.rows, k, y) && AllActive(placed.rows, run) && after.pending == placed.pending
    requires Finished(placed.rows, after.rows, y, run[0].height, run[|run| - 1].height + 1)
    requires GoodAt(p, after.rows, y) && LinksTrue(after.rows)
    ensures Pushed(p, db, k, run, y, (after, Some(Served)))
  {
    hide Grown, AllActive, Finished, GoodAt, LinksTrue, PlaceRun;
  }

  lemma {:induction false} OnTipLinked(p: Params, t: seq<Row>, k: nat, run: seq<Header>)
    requires Sound(Heads(t)) && k < |t| && OnTip(p, t, k, run)
    ensures Linked(run)
  {
  }

  lemma {:induction false} GoodLinks(p: Params, t: seq<Row>)
    requires Good(p, t)
    ensures LinksTrue(t) && Sound(Heads(t))
  {
  }

  // ── Placing does not read the links or the tip ───────────────────────────

  /** Tables that differ at most in the tip flags and links of the first `m`
      rows. */
  ghost predicate Like(a: seq<Row>, b: seq<Row>, m: nat) {
    |a| == |b| && m <= |a| && forall i {:trigger a[i]} {:trigger b[i]} :: 0 <= i < |a| ==>
      a[i].h == b[i].h && a[i].active == b[i].active && a[i].work == b[i].work && (m <= i ==> a[i] == b[i])
  }

  ghost predicate KeepsLinks(a: seq<Row>, b: seq<Row>) {
    |a| <= |b| && forall i {:trigger b[i]} :: 0 <= i < |a| ==>
      b[i].h == a[i].h && b[i].link == a[i].link && b[i].tip == a[i].tip && (a[i].active ==> b[i].active)
  }

  lemma {:induction false} LikeHeads(a: seq<Row>, b: seq<Row>, m: nat)
    requires Like(a, b, m)
    ensures Heads(a) == Heads(b)
  {
    assert forall i :: 0 <= i < |a| ==> a[i].h == b[i].h;
  }

  lemma {:induction false} PlaceLike(a: seq<Row>, b: seq<Row>, m: nat, h: Header, work: nat)
    requires Like(a, b, m)
    ensures Like(Place(a, h, work), Place(b, h, work), m) && KeepsLinks(a, Place(a, h, work))
  {
    LikeHeads(a, b, m);
    hide Heads;
    match Find(Heads(a), h.hash) {
      case None =>
      case Some(n) => assert |Heads(a)| == |a|;
    }
  }

  lemma {:induction false} KeepsOn(a: seq<Row>, b: seq<Row>, c: seq<Row>)
    requires KeepsLinks(a, b) && KeepsLinks(b, c)
    ensures KeepsLinks(a, c)
  {
  }

  lemma {:induction false} PlaceRunLike(p: Params, a: seq<Row>, b: seq<Row>, m: nat, run: seq<Header>, work: nat)
    requires Like(a, b, m)
    ensures Like(PlaceRun(p, a, run, work), PlaceRun(p, b, run, work), m)
    ensures KeepsLinks(a, PlaceRun(p, a, run, work))
    decreases |run|
  {
    hide *;
    if run == [] {
      PlaceRunNone(p, a, work);
      PlaceRunNone(p, b, work);
    } else {
      var w := work + p.work(run[0].bits);
      PlaceLike(a, b, m, run[0], w);
      PlaceRunNext(p, a, run, work);
      PlaceRunNext(p, b, run, work);
      PlaceRunLike(p, Place(a, run[0], w), Place(b, run[0], w), m, run[1..], w);
      KeepsOn(a, Place(a, run[0], w), PlaceRun(p, Place(a, run[0], w), run[1..], w));
    }
  }

  lemma {:induction false} PlaceRunNone(p: Params, a: seq<Row>, work: nat)
    ensures PlaceRun(p, a, [], work) == a && KeepsLinks(a, a)
  {
    PlaceRunEmpty(p, a, work);
  }

  // ── The first header pushed alone ────────────────────────────────────────

  /** The top of a grown store stands alone at its height. */
  lemma {:induction false} TopAlone(p: Params, t: seq<Row>, k: nat, y: nat, i: nat)
    requires Grown(p, t, k, y) && i < |t| && t[i].active && t[y].h.height <= t[i].h.height
    ensures i == y
  {
    hide Sound, Path, Root;
    GrownHeights(p, t, k, y, i);
  }

  /** Every link of the first header's table is as placed, but its own is set,
      to `k` if it was not. */
  ghost predicate LinkSet(a: seq<Row>, b: seq<Row>, n: nat, k: nat) {
    && |a| == |b| && n < |a|
    && (forall i {:trigger b[i]} :: 0 <= i < |a| && i != n ==> b[i].link == a[i].link)
    && b[n].link == if a[n].link.None? then Some(k) else a[n].link
  }

  lemma {:induction false} FinishedFirst(p: Params, a: seq<Row>, b: seq<Row>, j: nat, n: nat, k: nat, lo: nat)
    requires Grown(p, a, j, n) && Sound(Heads(a)) && n < |a| && a[n].h.height == lo && a[n].active
    requires Finished(a, b, n, lo, lo + 1) && Find(Heads(a), a[n].h.prev) == Some(k)
    ensures Like(a, b, |a|) && LinkSet(a, b, n, k)
  {
    hide Grown, Sound, Heads;
    forall i | 0 <= i < |a| && i != n ensures b[i].link == a[i].link {
      if a[i].active && lo <= a[i].h.height { TopAlone(p, a, j, n, i); }
    }
  }

  /** The two tables, finished, agree row by row. */
  lemma {:induction false} FinishedAlike(p: Params, a: seq<Row>, b: seq<Row>, wholeA: seq<Row>, wholeB: seq<Row>, u: seq<Row>, v: seq<Row>,
                                         j: nat, k: nat, n: nat, y: nat, lo: nat, hi: nat)
    requires Grown(p, wholeA, j, y) && Sound(Heads(wholeA)) && Like(wholeA, wholeB, |a|) && |a| == |b|
    requires KeepsLinks(a, wholeA) && KeepsLinks(b, wholeB) && n < |a| && a[n].active && a[n].h.height == lo && lo < hi
    requires LinkSet(a, b, n, k) && Find(Heads(wholeA), a[n].h.prev) == Some(k)
    requires Finished(wholeA, u, y, lo, hi) && Finished(wholeB, v, y, lo + 1, hi)
    ensures u == v
  {
    LikeHeads(wholeA, wholeB, |a|);
    forall i | 0 <= i < |wholeA| && wholeA[i].active && wholeA[i].h.height == lo ensures i == n {
      SameHeightSame(p, wholeA, j, y, n, i);
    }
    hide Grown, Sound, Heads;
    forall i | 0 <= i < |wholeA| ensures u[i] == v[i] {
      FinishedRow(a, b, wholeA, wholeB, u, v, k, n, y, lo, hi, i);
    }
  }

  lemma {:induction false} FinishedRow(a: seq<Row>, b: seq<Row>, wholeA: seq<Row>, wholeB: seq<Row>, u: seq<Row>, v: seq<Row>,
                                       k: nat, n: nat, y: nat, lo: nat, hi: nat, i: nat)
    requires Like(wholeA, wholeB, |a|) && |a| == |b| && KeepsLinks(a, wholeA) && KeepsLinks(b, wholeB) && Heads(wholeA) == Heads(wholeB)
    requires n < |a| && a[n].active && lo < hi && LinkSet(a, b, n, k) && i < |wholeA|
    requires wholeA[i].active && wholeA[i].h.height == lo ==> i == n
    requires a[n].h.height == lo && Find(Heads(wholeA), a[n].h.prev) == Some(k)
    requires Finished(wholeA, u, y, lo, hi) && Finished(wholeB, v, y, lo + 1, hi)
    ensures u[i] == v[i]
  {
    hide Heads;
    assert u[i] == wholeA[i].(tip := i == y, link := LinkIn(wholeA, i, lo, hi));
    assert v[i] == wholeB[i].(tip := i == y, link := LinkIn(wholeB, i, lo + 1, hi));
    if i < |a| {
      assert wholeA[i].link == a[i].link && wholeB[i].link == b[i].link;
    }
  }

  lemma {:induction false} SameHeightSame(p: Params, t: seq<Row>, k: nat, y: nat, i: nat, j: nat)
    requires Grown(p, t, k, y) && i < |t| && j < |t| && t[i].active && t[j].active && t[i].h.height == t[j].h.height
    ensures i == j
  {
    hide Sound, Path, Root;
    GrownApart(p, t, k, y, i, j);
  }

  /** The tops of two tables that differ in flags and links are the same row. */
  lemma {:induction false} SameTop(p: Params, wholeA: seq<Row>, wholeB: seq<Row>, m: nat, k: nat, n: nat, y: nat, z: nat)
    requires Grown(p, wholeA, k, y) && Grown(p, wholeB, n, z) && Like(wholeA, wholeB, m)
    ensures y == z
  {
    TopIsHighest(p, wholeA, k, y);
    TopIsHighest(p, wholeB, n, z);
    hide Grown;
    assert wholeA[z].active && wholeB[y].active;
  }

  // ── The run pushed whole, and its first header alone before the rest ─────

  /** The first header of the run, placed. */
  lemma {:induction false} FirstPlaced(all: iset<Header>, p: Params, t: seq<Row>, k: nat, h: Header) returns (n: nat)
    requires Agree(all) && AllIn(all, Heads(t)) && h in all && GoodAt(p, t, k) && LinksTrue(t) && k < |t|
    requires Sound(Heads(t)) && h.prev == t[k].h.hash
    ensures var a := Place(t, h, t[k].work + p.work(h.bits));
            && Grown(p, a, k, n) && n < |a| && a[n].h == h && a[n].active && a[n].work == t[k].work + p.work(h.bits)
            && AllIn(all, Heads(a))
  {
    hide Sound, Grown, Place, Heads;
    GoodIsGrown(p, t, k);
    n := GrowOne(all, p, t, k, k, h, t[k].work + p.work(h.bits));
    GrowOneIn(all, p, t, h, t[k].work + p.work(h.bits));
  }

  lemma {:induction false} PlaceRunOne(p: Params, t: seq<Row>, h: Header, work: nat)
    ensures PlaceRun(p, t, [h], work) == Place(t, h, work + p.work(h.bits))
  {
    hide Place;
    PlaceRunNext(p, t, [h], work);
    assert [h][1..] == [];
    PlaceRunNone(p, Place(t, h, work + p.work(h.bits)), work + p.work(h.bits));
  }

  /** The rules read no table when no checkpoint above is held. */
  lemma {:induction false} FaultAnyTable(p: Params, links: seq<Link>, run: seq<Header>, t: seq<Row>, u: seq<Row>)
    ensures ContextFault(p, links, run, None, None, t) == ContextFault(p, links, run, None, None, u)
    decreases |run|
  {
    if run != [] {
      hide CheckContext;
      FaultAnyTable(p, links + [LinkOf(run[0])], run[1..], t, u);
    }
  }

  lemma {:induction false} FaultSplit(p: Params, links: seq<Link>, run: seq<Header>, t: seq<Row>, u: seq<Row>)
    requires run != [] && ContextFault(p, links, run, None, None, t).None?
    ensures ContextFault(p, links, [run[0]], None, None, t).None?
    ensures ContextFault(p, links + [LinkOf(run[0])], run[1..], None, None, u).None?
  {
    hide CheckContext;
    FaultAnyTable(p, links + [LinkOf(run[0])], run[1..], t, u);
    assert [run[0]][1..] == [];
    assert ContextFault(p, links + [LinkOf(run[0])], [], None, None, t).None?;
  }

  lemma {:induction false} FirstOnTip(p: Params, t: seq<Row>, k: nat, run: seq<Header>)
    requires Sound(Heads(t)) && k < |t| && OnTip(p, t, k, run) && run != []
    ensures OnTip(p, t, k, [run[0]])
  {
    hide Sound, ContextFault, AncestryLinks;
    FaultSplit(p, AncestryLinks(t, k), run, t, t);
  }

  /** No ancestor of the tip names a header above it. */
  lemma {:induction false} SamePath(hs: seq<Header>, k: nat, h: Header)
    requires Sound(hs) && Sound(hs + [h]) && k < |hs| && h.height == hs[k].height + 1
    ensures Path(hs + [h], k) == Path(hs, k)
  {
    forall j | j in Path(hs, k) ensures hs[j].prev != h.hash {
      SoundPair(hs + [h], j, |hs|);
    }
    PathAppend(hs, h, k);
  }

  /** The ancestry of the new tip is that of the old one and its header. */
  lemma {:induction false} AncestryGrows(t: seq<Row>, u: seq<Row>, k: nat, n: nat, h: Header)
    requires CleanAt(t, k) && CleanAt(u, n) && Sound(Heads(t)) && Sound(Heads(u)) && k < |t| && n < |u|
    requires u[n].h == h && h.prev == t[k].h.hash && h.height == t[k].h.height + 1
    requires Heads(u) == Heads(t) || Heads(u) == Heads(t) + [h]
    ensures AncestryLinks(u, n) == AncestryLinks(t, k) + [LinkOf(h)]
  {
    var hs, hu := Heads(t), Heads(u);
    CleanAncestry(t, k, k);
    CleanAncestry(u, n, n);
    assert hu[n] == h;
    assert hu[k] == hs[k];
    ParentIs(hu, n, k);
    PathCons(hu, n, k);
    if hu != hs { SamePath(hs, k, h); }
    hide Sound, Path, Heads, Ancestry;
    LinksGrow(hs, hu, Path(hs, k), n, h);
  }

  lemma {:induction false} LinksGrow(hs: seq<Header>, hu: seq<Header>, path: seq<nat>, n: nat, h: Header)
    requires forall i :: 0 <= i < |path| ==> path[i] < |hs|
    requires hu == hs || hu == hs + [h]
    requires n < |hu| && hu[n] == h
    ensures forall i :: 0 <= i < |[n] + path| ==> ([n] + path)[i] < |hu|
    ensures Links(hu, [n] + path) == Links(hs, path) + [LinkOf(h)]
  {
    var all := [n] + path;
    var a, b := Links(hu, all), Links(hs, path);
    forall i | 0 <= i < |path| ensures a[i] == b[i] {
      assert all[|path| - i] == path[|path| - 1 - i];
      assert a[|all| - 1 - (|path| - i)] == LinkOf(hu[all[|path| - i]]);
      assert b[|path| - 1 - (|path| - 1 - i)] == LinkOf(hs[path[|path| - 1 - i]]);
    }
    assert a[|all| - 1 - 0] == LinkOf(hu[all[0]]);
    assert a == b + [LinkOf(h)];
  }

  lemma {:induction false} RestOnTip(p: Params, t: seq<Row>, u: seq<Row>, k: nat, n: nat, run: seq<Header>)
    requires CleanAt(t, k) && CleanAt(u, n) && Sound(Heads(t)) && Sound(Heads(u)) && k < |t| && n < |u|
    requires run != [] && OnTip(p, t, k, run) && u[n].h == run[0]
    requires Heads(u) == Heads(t) || Heads(u) == Heads(t) + [run[0]]
    ensures OnTip(p, u, n, run[1..])
  {
    hide Sound, ContextFault, AncestryLinks, CleanAt, Heads;
    AncestryGrows(t, u, k, n, run[0]);
    FaultSplit(p, AncestryLinks(t, k), run, t, u);
  }

  lemma {:induction false} GoodIsClean(p: Params, t: seq<Row>, k: nat)
    requires GoodAt(p, t, k)
    ensures CleanAt(t, k) && Sound(Heads(t)) && k < |t|
  {
  }

  /** What pushing one header on the tip `k` leaves: its row `n` placed (`a`),
      linked, and the tip. */
  ghost predicate Alone(all: iset<Header>, p: Params, db: Db, k: nat, h: Header, n: nat, a: seq<Row>,
                        out: (Db, Option<Verdict>))
    requires k < |db.rows|
  {
    && out.1 == Some(Served) && out.0.pending == db.pending && Grown(p, a, k, n) && AllIn(all, Heads(a))
    && n < |a| && a[n].h == h && a[n].active && a[n].work == db.rows[k].work + p.work(h.bits)
    && Finished(a, out.0.rows, n, h.height, h.height + 1)
    && GoodAt(p, out.0.rows, n) && LinksTrue(out.0.rows)
  }

  /** The table after the first header alone, and what it is ready for. */
  lemma {:induction false} FirstAlone(all: iset<Header>, p: Params, db: Db, k: nat, h: Header) returns (n: nat)
    requires Agree(all) && h in all && AllIn(all, [h]) && AllIn(all, Heads(db.rows))
    requires Good(p, db.rows) && GoodAt(p, db.rows, k) && LinksTrue(db.rows)
    requires Sound(Heads(db.rows)) && k < |db.rows| && OnTip(p, db.rows, k, [h]) && h.prev == db.rows[k].h.hash
    ensures Alone(all, p, db, k, h, n, Place(db.rows, h, db.rows[k].work + p.work(h.bits)),
                  IngestPushed(all, p, db, [h]))
  {
    hide *;
    var w := db.rows[k].work + p.work(h.bits);
    var y := PushOnTip(all, p, db, k, [h]);
    n := FirstPlaced(all, p, db.rows, k, h);
    PlaceRunOne(p, db.rows, h, db.rows[k].work);
    AloneIs(all, p, db, k, h, n, y, Place(db.rows, h, w), IngestPushed(all, p, db, [h]));
  }

  lemma {:induction false} AloneIs(all: iset<Header>, p: Params, db: Db, k: nat, h: Header, n: nat, y: nat, a: seq<Row>,
                                   out: (Db, Option<Verdict>))
    requires k < |db.rows| && a == PlaceRun(p, db.rows, [h], db.rows[k].work) && Grown(p, a, k, n)
    requires AllIn(all, Heads(a)) && n < |a| && a[n].h == h && a[n].active
    requires a[n].work == db.rows[k].work + p.work(h.bits)
    requires Pushed(p, db, k, [h], y, out)
    ensures Alone(all, p, db, k, h, n, a, out)
  {
    hide Grown, AllActive, Finished, GoodAt, LinksTrue, PlaceRun, Place, Heads, AllIn, Pushed;
    PushedParts(p, db, k, [h], y, out, h.height, h.height + 1);
    SoleTop(p, a, k, n, y);
  }

  lemma {:induction false} SoleTop(p: Params, t: seq<Row>, k: nat, n: nat, y: nat)
    requires Grown(p, t, k, n) && Grown(p, t, k, y)
    ensures n == y
  {
    TopIsHighest(p, t, k, n);
    TopIsHighest(p, t, k, y);
  }

  lemma {:induction false} AloneParts(all: iset<Header>, p: Params, db: Db, k: nat, h: Header, n: nat, a: seq<Row>,
                                      out: (Db, Option<Verdict>))
    requires k < |db.rows| && Alone(all, p, db, k, h, n, a, out)
    ensures var u := out.0.rows;
            && GoodAt(p, u, n) && LinksTrue(u) && Good(p, u) && CleanAt(u, n) && Sound(Heads(u)) && n < |u|
            && Heads(u) == Heads(a) && AllIn(all, Heads(u)) && Finished(a, u, n, h.height, h.height + 1)
            && u[n].work == db.rows[k].work + p.work(h.bits) && u[n].h == h
  {
    var u := out.0.rows;
    AloneGood(all, p, db, k, h, n, a, out);
    hide *;
    GoodIsClean(p, u, n);
    FinishedHeads(a, u, n, h.height, h.height + 1);
    GoodFrom(p, u, n);
  }

  lemma {:induction false} AloneGood(all: iset<Header>, p: Params, db: Db, k: nat, h: Header, n: nat, a: seq<Row>,
                                     out: (Db, Option<Verdict>))
    requires k < |db.rows| && Alone(all, p, db, k, h, n, a, out)
    ensures GoodAt(p, out.0.rows, n) && LinksTrue(out.0.rows) && AllIn(all, Heads(a)) && n < |a| && a[n].h == h
    ensures a[n].work == db.rows[k].work + p.work(h.bits) && Finished(a, out.0.rows, n, h.height, h.height + 1)
  {
    hide GoodAt, LinksTrue, Grown, Heads, Finished, AllIn;
  }

  /** After the first header alone the rest stands on the new tip. */
  lemma {:induction false} RestReady(p: Params, t: seq<Row>, u: seq<Row>, k: nat, run: seq<Header>, n: nat, work: nat)
    requires Sound(Heads(t)) && k < |t| && CleanAt(t, k) && run != [] && OnTip(p, t, k, run)
    requires Admissible(Heads(t), run[0]) && Heads(u) == Heads(Place(t, run[0], work))
    requires CleanAt(u, n) && Sound(Heads(u)) && n < |u| && u[n].h == run[0]
    ensures OnTip(p, u, n, run[1..])
  {
    hide *;
    PlaceSound(t, run[0], work);
    RestOnTip(p, t, u, k, n, run);
  }

  /** A stored parent is found in any table that keeps the rows. */
  lemma {:induction false} ParentKept(t: seq<Row>, u: seq<Row>, k: nat, hash: Hash)
    requires k < |t| && t[k].h.hash == hash && |t| <= |u| && u[k].h == t[k].h && Sound(Heads(u))
    ensures Find(Heads(u), hash) == Some(k)
  {
    FindIs(Heads(u), k, hash);
  }

  /** The tables the rest is placed on, and the tables it leaves placed. */
  lemma {:induction false} RestPlaced(p: Params, a: seq<Row>, b: seq<Row>, j: nat, n: nat, k: nat, rest: seq<Header>, work: nat)
    requires Grown(p, a, j, n) && Sound(Heads(a)) && n < |a| && a[n].active
    requires Finished(a, b, n, a[n].h.height, a[n].h.height + 1) && Find(Heads(a), a[n].h.prev) == Some(k)
    ensures var wholeA, wholeB := PlaceRun(p, a, rest, work), PlaceRun(p, b, rest, work);
            && Like(wholeA, wholeB, |a|) && |a| == |b| && KeepsLinks(a, wholeA) && KeepsLinks(b, wholeB) && LinkSet(a, b, n, k)
  {
    LikeSelf(b);
    FinishedHeads(a, b, n, a[n].h.height, a[n].h.height + 1);
    hide *;
    FinishedFirst(p, a, b, j, n, k, a[n].h.height);
    PlaceRunLike(p, a, b, |a|, rest, work);
    PlaceRunLike(p, b, b, 0, rest, work);
  }

  lemma {:induction false} LikeSelf(b: seq<Row>)
    ensures Like(b, b, 0)
  {
  }

  lemma {:induction false} KeptRow(a: seq<Row>, b: seq<Row>, k: nat)
    requires KeepsLinks(a, b) && k < |a|
    ensures k < |b| && |a| <= |b| && b[k].h == a[k].h
  {
  }

  lemma {:induction false} PlaceKeepsLinks(t: seq<Row>, h: Header, work: nat)
    ensures KeepsLinks(t, Place(t, h, work))
  {
    LikeSelf(t);
    PlaceLike(t, t, 0, h, work);
  }

  /** Pushing a run on the tip is pushing its first header, then the rest. */
  lemma {:induction false} PushSplit(all: iset<Header>, p: Params, db: Db, k: nat, run: seq<Header>, n: nat)
    requires Agree(all) && AllIn(all, run) && AllIn(all, Heads(db.rows)) && Good(p, db.rows) && GoodAt(p, db.rows, k)
    requires Sound(Heads(db.rows)) && k < |db.rows| && LinksTrue(db.rows)
    requires 1 < |run| && OnTip(p, db.rows, k, run) && run[0].prev == db.rows[k].h.hash && run[0] in all
    requires AllIn(all, [run[0]]) && AllIn(all, run[1..])
    requires Alone(all, p, db, k, run[0], n, Place(db.rows, run[0], db.rows[k].work + p.work(run[0].bits)),
                   IngestPushed(all, p, db, [run[0]]))
    requires var u := IngestPushed(all, p, db, [run[0]]).0.rows;
             && Good(p, u) && GoodAt(p, u, n) && Sound(Heads(u)) && n < |u| && AllIn(all, Heads(u))
             && u[n].work == db.rows[k].work + p.work(run[0].bits) && OnTip(p, u, n, run[1..])
    ensures IngestPushed(all, p, db, run) == IngestPushed(all, p, IngestPushed(all, p, db, [run[0]]).0, run[1..])
  {
    RunEnds(p, db.rows, k, run);
    hide *;
    var db1 := IngestPushed(all, p, db, [run[0]]).0;
    var y := PushOnTip(all, p, db, k, run);
    var z := PushOnTip(all, p, db1, n, run[1..]);
    SplitPushed(all, p, db, k, run, n, y, z, IngestPushed(all, p, db, [run[0]]),
                IngestPushed(all, p, db, run), IngestPushed(all, p, db1, run[1..]));
  }

  lemma {:induction false} SplitPushed(all: iset<Header>, p: Params, db: Db, k: nat, run: seq<Header>, n: nat, y: nat, z: nat,
                                       first: (Db, Option<Verdict>), whole: (Db, Option<Verdict>), last: (Db, Option<Verdict>))
    requires k < |db.rows| && 1 < |run| && run[0].prev == db.rows[k].h.hash && n < |first.0.rows|
    requires Alone(all, p, db, k, run[0], n, Place(db.rows, run[0], db.rows[k].work + p.work(run[0].bits)), first)
    requires first.0.rows[n].work == db.rows[k].work + p.work(run[0].bits)
    requires run[1..] != [] && run[1..][0].height == run[0].height + 1
    requires run[1..][|run[1..]| - 1] == run[|run| - 1] && run[0].height < run[|run| - 1].height + 1
    requires Pushed(p, db, k, run, y, whole) && Pushed(p, first.0, n, run[1..], z, last)
    ensures whole == last
  {
    hide *;
    AloneShape(all, p, db, k, run[0], n, Place(db.rows, run[0], db.rows[k].work + p.work(run[0].bits)), first);
    PlaceRunNext(p, db.rows, run, db.rows[k].work);
    PushedParts(p, db, k, run, y, whole, run[0].height, run[|run| - 1].height + 1);
    PushedParts(p, first.0, n, run[1..], z, last, run[0].height + 1, run[|run| - 1].height + 1);
    SplitTables(p, db, k, run[0], run[1..], n, y, z, first.0.rows, whole.0.rows, last.0.rows,
                run[|run| - 1].height + 1);
  }

  lemma {:induction false} AloneShape(all: iset<Header>, p: Params, db: Db, k: nat, h: Header, n: nat, a: seq<Row>,
                                      out: (Db, Option<Verdict>))
    requires k < |db.rows| && Alone(all, p, db, k, h, n, a, out)
    ensures Grown(p, a, k, n) && n < |a| && a[n].h == h && a[n].active
    ensures Finished(a, out.0.rows, n, h.height, h.height + 1)
    ensures out.0.pending == db.pending && out.1 == Some(Served)
  {
    hide Grown, Finished, GoodAt, LinksTrue, Heads, AllIn;
  }

  lemma {:induction false} RunEnds(p: Params, t: seq<Row>, k: nat, run: seq<Header>)
    requires Sound(Heads(t)) && k < |t| && 1 < |run| && OnTip(p, t, k, run)
    ensures run[1..] != [] && run[1..][0].height == run[0].height + 1
    ensures run[1..][|run[1..]| - 1] == run[|run| - 1] && run[0].height < run[|run| - 1].height + 1
  {
    LinkedHeights(run, |run| - 1);
  }

  lemma {:induction false} SplitTables(p: Params, db: Db, k: nat, h: Header, rest: seq<Header>, n: nat, y: nat, z: nat,
                                       b: seq<Row>, u: seq<Row>, v: seq<Row>, hi: nat)
    requires k < |db.rows| && h.prev == db.rows[k].h.hash && h.height < hi
    requires Grown(p, Place(db.rows, h, db.rows[k].work + p.work(h.bits)), k, n)
    requires var a := Place(db.rows, h, db.rows[k].work + p.work(h.bits));
             n < |a| && a[n].h == h && a[n].active && Finished(a, b, n, h.height, h.height + 1)
    requires var w := db.rows[k].work + p.work(h.bits);
             && Grown(p, PlaceRun(p, Place(db.rows, h, w), rest, w), k, y) && Grown(p, PlaceRun(p, b, rest, w), n, z)
             && Finished(PlaceRun(p, Place(db.rows, h, w), rest, w), u, y, h.height, hi)
             && Finished(PlaceRun(p, b, rest, w), v, z, h.height + 1, hi)
    ensures u == v
  {
    hide *;
    var w := db.rows[k].work + p.work(h.bits);
    var a := Place(db.rows, h, w);
    var wholeA, wholeB := PlaceRun(p, a, rest, w), PlaceRun(p, b, rest, w);
    GrownSound(p, a, k, n);
    GrownSound(p, wholeA, k, y);
    PlaceKeepsLinks(db.rows, h, w);
    KeptRow(db.rows, a, k);
    ParentKept(db.rows, a, k, h.prev);
    RestPlaced(p, a, b, k, n, k, rest, w);
    KeptRow(a, wholeA, k);
    ParentKept(db.rows, wholeA, k, h.prev);
    SameTop(p, wholeA, wholeB, |a|, k, n, y, z);
    FinishedAlike(p, a, b, wholeA, wholeB, u, v, k, k, n, y, h.height, hi);
  }

  // ── A whole run, header by header ────────────────────────────────────────

  function Singles(run: seq<Header>): (r: seq<Call>)
    ensures |r| == |run|
  {
    seq(|run|, j requires 0 <= j < |run| => PushCall([run[j]]))
  }

  lemma {:induction false} InvParts(all: iset<Header>, p: Params, db: Db, k: nat)
    requires Inv(all, p, db) && GoodAt(p, db.rows, k)
    ensures Agree(all) && AllIn(all, Heads(db.rows)) && Good(p, db.rows) && LinksTrue(db.rows) && CleanAt(db.rows, k)
    ensures Sound(Heads(db.rows))
  {
    GoodLinks(p, db.rows);
    GoodIsClean(p, db.rows, k);
  }

  /** A run's first header and the rest. */
  lemma {:induction false} FirstOfRun(all: iset<Header>, hs: seq<Header>, run: seq<Header>)
    requires Agree(all) && AllIn(all, hs) && AllIn(all, run) && run != []
    ensures run[0] in all && AllIn(all, [run[0]]) && AllIn(all, run[1..]) && Admissible(hs, run[0])
  {
    AgreeAdmits(all, hs, run[0]);
  }

  lemma {:induction false} TipRunFirst(p: Params, t: seq<Row>, k: nat, run: seq<Header>)
    requires CleanAt(t, k) && Sound(Heads(t)) && k < |t| && run != [] && OnTip(p, t, k, run)
    ensures OnTip(p, t, k, [run[0]]) && run[0].prev == t[k].h.hash && StandsOnStored(t, [run[0]])
  {
    FirstOnTip(p, t, k, run);
    assert run[0].prev == t[k].h.hash && run[0].height == t[k].h.height + 1;
    hide Sound, CleanAt, OnTip;
    NoneCompetes(p, t, k, [run[0]]);
  }

  /** What one push of a tip run asks of the store. */
  lemma {:induction false} TipRunFacts(all: iset<Header>, p: Params, db: Db, k: nat, run: seq<Header>)
    requires Inv(all, p, db) && AllIn(all, run) && run != [] && GoodAt(p, db.rows, k)
    requires Sound(Heads(db.rows)) && k < |db.rows| && OnTip(p, db.rows, k, run)
    ensures Agree(all) && AllIn(all, Heads(db.rows)) && Good(p, db.rows) && LinksTrue(db.rows) && CleanAt(db.rows, k)
    ensures run[0] in all && AllIn(all, [run[0]]) && AllIn(all, run[1..]) && Admissible(Heads(db.rows), run[0])
    ensures OnTip(p, db.rows, k, [run[0]]) && run[0].prev == db.rows[k].h.hash
    ensures Allowed(all, db, PushCall([run[0]]))
  {
    hide Inv, Sound, Good, GoodAt, CleanAt, LinksTrue, OnTip, Admissible, Agree, AllIn, StandsOnStored, Heads;
    InvParts(all, p, db, k);
    FirstOfRun(all, Heads(db.rows), run);
    TipRunFirst(p, db.rows, k, run);
  }

  lemma {:induction false} ReplayFirst(all: iset<Header>, p: Params, db: Db, run: seq<Header>)
    requires Inv(all, p, db) && run != [] && Allowed(all, db, PushCall([run[0]]))
    ensures Inv(all, p, After(all, p, db, PushCall([run[0]])))
    ensures Replay(all, p, db, Singles(run)) == Replay(all, p, After(all, p, db, PushCall([run[0]])), Singles(run[1..]))
  {
    hide Inv, Allowed, After;
    CallKeeps(all, p, db, PushCall([run[0]]));
    assert Singles(run)[0] == PushCall([run[0]]);
    assert Singles(run)[1..] == Singles(run[1..]);
  }

  lemma {:induction false} AfterPush(all: iset<Header>, p: Params, db: Db, run: seq<Header>)
    requires Inv(all, p, db) && Allowed(all, db, PushCall(run))
    ensures Sound(Heads(db.rows)) && AllIn(all, Heads(db.rows)) && AllIn(all, run) && Agree(all)
    ensures After(all, p, db, PushCall(run)) == IngestPushed(all, p, db, run).0
  {
    hide IngestPushed;
  }

  lemma {:induction false} ReplayNone(all: iset<Header>, p: Params, db: Db)
    requires Inv(all, p, db)
    ensures Replay(all, p, db, Singles([])) == db
  {
  }

  /** A run on the tip pushed header by header leaves the table pushing it whole
      leaves, its last header the tip. */
  lemma {:induction false} EachIsWhole(all: iset<Header>, p: Params, db: Db, k: nat, run: seq<Header>) returns (y: nat)
    requires Inv(all, p, db) && AllIn(all, run) && run != [] && GoodAt(p, db.rows, k)
    requires Agree(all) && AllIn(all, Heads(db.rows))
    requires Sound(Heads(db.rows)) && k < |db.rows| && OnTip(p, db.rows, k, run)
    ensures Replay(all, p, db, Singles(run)) == IngestPushed(all, p, db, run).0
    ensures var u := IngestPushed(all, p, db, run).0.rows;
            GoodAt(p, u, y) && y < |u| && u[y].h == run[|run| - 1]
    decreases |run|
  {
    hide *;
    var h := run[0];
    var w := db.rows[k].work + p.work(h.bits);
    TipRunFacts(all, p, db, k, run);
    var n := FirstAlone(all, p, db, k, h);
    var out := IngestPushed(all, p, db, [h]);
    AloneParts(all, p, db, k, h, n, Place(db.rows, h, w), out);
    ReplayFirst(all, p, db, run);
    AfterPush(all, p, db, [h]);
    if |run| == 1 {
      assert run == [h] && run[1..] == [];
      ReplayNone(all, p, out.0);
      y := n;
    } else {
      RestReady(p, db.rows, out.0.rows, k, run, n, w);
      PushSplit(all, p, db, k, run, n);
      y := EachIsWhole(all, p, out.0, n, run[1..]);
      assert run[1..][|run[1..]| - 1] == run[|run| - 1];
    }
  }

  lemma {:induction false} FinishedActive(u: seq<Row>, v: seq<Row>, y: nat, lo: nat, hi: nat, run: seq<Header>)
    requires Finished(u, v, y, lo, hi) && AllActive(u, run)
    ensures AllActive(v, run)
  {
    forall j | 0 <= j < |run| ensures ActiveRow(v, run[j]) {
      assert ActiveRow(u, run[j]);
      var i :| 0 <= i < |u| && u[i].active && u[i].h == run[j];
      assert v[i].active && v[i].h == run[j];
    }
  }

  /** A run the read-through passes on the tip of a clean store: the bulk writer
      accepts it, and pushing it header by header leaves the same table, every
      header active and the last one the tip. */
  lemma {:induction false} PassedRunLands(all: iset<Header>, p: Params, db: Db, k: nat, run: seq<Header>) returns (y: nat)
    requires Inv(all, p, db) && AllIn(all, run) && run != [] && GoodAt(p, db.rows, k)
    requires Agree(all) && AllIn(all, Heads(db.rows)) && Sound(Heads(db.rows)) && k < |db.rows|
    requires JudgeAbove(p, db.rows, run) == Passed && run[0].prev == db.rows[k].h.hash
    ensures JudgeRun(p, db.rows, run).None?
    ensures IngestPushed(all, p, db, run).1 == Some(Served)
    ensures Replay(all, p, db, Singles(run)) == IngestPushed(all, p, db, run).0
    ensures var u := Replay(all, p, db, Singles(run)).rows;
            GoodAt(p, u, y) && y < |u| && u[y].h == run[|run| - 1] && AllActive(u, run)
  {
    hide *;
    GoodIsClean(p, db.rows, k);
    PassedIsAccepted(p, db.rows, k, run);
    TipRunFacts(all, p, db, k, run);
    y := EachIsWhole(all, p, db, k, run);
    var z := PushOnTip(all, p, db, k, run);
    var out := IngestPushed(all, p, db, run);
    PushedParts(p, db, k, run, z, out, run[0].height, run[|run| - 1].height + 1);
    FinishedActive(PlaceRun(p, db.rows, run, db.rows[k].work), out.0.rows, z, run[0].height, run[|run| - 1].height + 1, run);
  }

  // ── Accepted whole, accepted one at a time ───────────────────────────────

  /** Each header of the run, pushed alone where the ones before it left the
      store, is accepted. */
  ghost predicate EachAccepted(all: iset<Header>, p: Params, db: Db, run: seq<Header>)
    requires Inv(all, p, db)
    decreases |run|
  {
    run == [] ||
    (var first := PushCall([run[0]]);
     && Allowed(all, db, first)
     && (InvSound(all, p, db); JudgeRun(p, db.rows, [run[0]]).None?)
     && (CallKeeps(all, p, db, first); EachAccepted(all, p, After(all, p, db, first), run[1..])))
  }

  lemma {:induction false} AcceptedStep(all: iset<Header>, p: Params, db: Db, run: seq<Header>)
    requires Inv(all, p, db) && run != [] && Sound(Heads(db.rows))
    requires Allowed(all, db, PushCall([run[0]])) && Inv(all, p, After(all, p, db, PushCall([run[0]])))
    ensures EachAccepted(all, p, db, run) <==>
              JudgeRun(p, db.rows, [run[0]]).None? && EachAccepted(all, p, After(all, p, db, PushCall([run[0]])), run[1..])
  {
    hide Inv, Allowed, After, JudgeRun, Sound, Heads;
  }

  lemma {:induction false} AcceptedNone(all: iset<Header>, p: Params, db: Db)
    requires Inv(all, p, db)
    ensures EachAccepted(all, p, db, [])
  {
  }

  /** A header on the tip before a run on it. */
  lemma {:induction false} FaultJoin(p: Params, links: seq<Link>, run: seq<Header>, t: seq<Row>, u: seq<Row>)
    requires run != [] && ContextFault(p, links, [run[0]], None, None, t).None?
    requires ContextFault(p, links + [LinkOf(run[0])], run[1..], None, None, u).None?
    ensures ContextFault(p, links, run, None, None, t).None?
  {
    hide CheckContext;
    FaultAnyTable(p, links + [LinkOf(run[0])], run[1..], t, u);
  }

  lemma {:induction false} WholeOnTip(p: Params, t: seq<Row>, u: seq<Row>, k: nat, n: nat, run: seq<Header>)
    requires CleanAt(t, k) && CleanAt(u, n) && Sound(Heads(t)) && Sound(Heads(u)) && k < |t| && n < |u|
    requires run != [] && Linked(run) && u[n].h == run[0] && OnTip(p, t, k, [run[0]]) && OnTip(p, u, n, run[1..])
    requires Heads(u) == Heads(t) || Heads(u) == Heads(t) + [run[0]]
    ensures OnTip(p, t, k, run)
  {
    hide Sound, ContextFault, AncestryLinks, CleanAt, Heads;
    AncestryGrows(t, u, k, n, run[0]);
    FaultJoin(p, AncestryLinks(t, k), run, t, u);
    forall i | 0 <= i < |run| ensures p.pow(run[i]) {
      if i == 0 { assert [run[0]][0] == run[0]; } else { assert run[1..][i - 1] == run[i]; }
    }
  }

  /** What a linked run on the tip of a clean store stands on. */
  lemma {:induction false} StandsOnTip(all: iset<Header>, p: Params, db: Db, k: nat, run: seq<Header>)
    requires Inv(all, p, db) && AllIn(all, run) && run != [] && GoodAt(p, db.rows, k)
    requires k < |db.rows| && run[0].prev == db.rows[k].h.hash
    ensures Agree(all) && AllIn(all, Heads(db.rows)) && Good(p, db.rows) && LinksTrue(db.rows) && CleanAt(db.rows, k)
    ensures Sound(Heads(db.rows)) && run[0].height == db.rows[k].h.height + 1
    ensures run[0] in all && AllIn(all, [run[0]]) && AllIn(all, run[1..]) && Admissible(Heads(db.rows), run[0])
  {
    InvParts(all, p, db, k);
    FirstOfRun(all, Heads(db.rows), run);
    hide Inv, Good, GoodAt, LinksTrue, CleanAt, Sound, Admissible;
    assert Heads(db.rows)[k] in all;
  }

  /** A linked run on the tip of a clean store: the bulk writer accepts it if and
      only if every header, pushed alone in turn, is accepted. */
  lemma {:induction false} AcceptedIsEach(all: iset<Header>, p: Params, db: Db, k: nat, run: seq<Header>)
    requires Inv(all, p, db) && AllIn(all, run) && Linked(run) && run != [] && GoodAt(p, db.rows, k)
    requires Sound(Heads(db.rows)) && k < |db.rows| && run[0].prev == db.rows[k].h.hash
    ensures JudgeRun(p, db.rows, run).None? <==> EachAccepted(all, p, db, run)
    decreases |run|, 1
  {
    hide *;
    var t := db.rows;
    var h := run[0];
    StandsOnTip(all, p, db, k, run);
    LinkedOne(run);
    TipJudged(p, t, k, run);
    TipJudged(p, t, k, [h]);
    if OnTip(p, t, k, run) { FirstOnTip(p, t, k, run); }
    FirstAllowed(all, p, db, k, run);
    CallKeeps(all, p, db, PushCall([h]));
    AcceptedStep(all, p, db, run);
    if OnTip(p, t, k, [h]) {
      AcceptedRest(all, p, db, k, run);
    }
  }

  lemma {:induction false} LinkedOne(run: seq<Header>)
    requires run != [] && Linked(run)
    ensures [run[0]] != [] && [run[0]][0] == run[0] && Linked([run[0]]) && Linked(run[1..])
    ensures 1 < |run| ==> run[1..] != [] && run[1..][0].prev == run[0].hash
    ensures |run| == 1 ==> run == [run[0]] && run[1..] == []
  {
  }

  lemma {:induction false} FirstAllowed(all: iset<Header>, p: Params, db: Db, k: nat, run: seq<Header>)
    requires CleanAt(db.rows, k) && Sound(Heads(db.rows)) && k < |db.rows| && run != [] && AllIn(all, [run[0]])
    requires run[0].prev == db.rows[k].h.hash && run[0].height == db.rows[k].h.height + 1
    ensures Allowed(all, db, PushCall([run[0]]))
  {
    hide CleanAt, Sound, StandsOnStored;
    NoneCompetes(p, db.rows, k, [run[0]]);
  }

  /** The rest of the run, its first header pushed alone. */
  lemma {:induction false} AcceptedRest(all: iset<Header>, p: Params, db: Db, k: nat, run: seq<Header>)
    requires Inv(all, p, db) && AllIn(all, run) && Linked(run) && run != [] && GoodAt(p, db.rows, k)
    requires Sound(Heads(db.rows)) && k < |db.rows| && run[0].prev == db.rows[k].h.hash
    requires Allowed(all, db, PushCall([run[0]])) && Inv(all, p, After(all, p, db, PushCall([run[0]])))
    requires OnTip(p, db.rows, k, [run[0]])
    ensures OnTip(p, db.rows, k, run) <==> EachAccepted(all, p, After(all, p, db, PushCall([run[0]])), run[1..])
    decreases |run|, 0
  {
    hide *;
    var t := db.rows;
    var h := run[0];
    var w := t[k].work + p.work(h.bits);
    StandsOnTip(all, p, db, k, run);
    LinkedOne(run);
    var n := FirstAlone(all, p, db, k, h);
    var out := IngestPushed(all, p, db, [h]);
    AloneParts(all, p, db, k, h, n, Place(t, h, w), out);
    AfterPush(all, p, db, [h]);
    if |run| == 1 {
      AcceptedNone(all, p, out.0);
    } else {
      var u := out.0.rows;
      PlaceSound(t, h, w);
      if OnTip(p, t, k, run) { RestOnTip(p, t, u, k, n, run); }
      if OnTip(p, u, n, run[1..]) { WholeOnTip(p, t, u, k, n, run); }
      StandsOnTip(all, p, out.0, n, run[1..]);
      TipJudged(p, u, n, run[1..]);
      AcceptedIsEach(all, p, out.0, n, run[1..]);
    }
  }
}
