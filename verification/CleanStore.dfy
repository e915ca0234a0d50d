/** The clean store: the active rows are exactly the stored ancestry of the one
    tip, down to an anchor the rules vouch for. What each transaction keeps. */
module CleanStore {
  import opened Wrappers
  import opened Headers
  import opened HeaderTable
  import opened Ancestor

  /** Active are exactly the rows of the path of row `k`, the one tip. */
  ghost predicate CleanAt(t: seq<Row>, k: nat) {
    && Sound(Heads(t)) && k < |t|
    && (forall i {:trigger t[i].tip} :: 0 <= i < |t| ==> (t[i].tip <==> i == k))
    && (forall i {:trigger t[i].active} :: 0 <= i < |t| ==> (t[i].active <==> i in Path(Heads(t), k)))
  }

  /** A parent link names the row with the parent's hash. */
  ghost predicate LinksTrue(t: seq<Row>) {
    forall i {:trigger t[i].link} :: 0 <= i < |t| && t[i].link.Some? ==>
      t[i].link.value < |t| && t[t[i].link.value].h.hash == t[i].h.prev
  }

  /** The anchor: the last row of the tip's stored ancestry. */
  ghost function Root(hs: seq<Header>, k: nat): (r: nat)
    requires Sound(hs) && k < |hs|
    ensures r < |hs| && r in Path(hs, k)
  {
    var p := Path(hs, k);
    p[|p| - 1]
  }

  /** The anchor is the genesis height or a listed checkpoint. */
  ghost predicate Vouched(p: Params, h: Header) {
    h.height == 0 || (h.height, h.hash) in p.checkpoints
  }

  /** An empty store, or a clean one on a vouched anchor. */
  ghost predicate Good(p: Params, t: seq<Row>) {
    && Sound(Heads(t)) && LinksTrue(t)
    && (t == [] || exists k: nat :: GoodAt(p, t, k))
  }

  ghost predicate GoodAt(p: Params, t: seq<Row>, k: nat) {
    CleanAt(t, k) && Vouched(p, t[Root(Heads(t), k)].h)
  }

  // ── What clean means, row by row ─────────────────────────────────────────

  /** One linked chain: one tip, at most one active row a height, the active
      heights reach from the anchor to the tip without a gap, and every active
      row but the anchor names the active row below it. */
  ghost predicate OneLinkedChain(t: seq<Row>, k: nat, anchor: nat) {
    && k < |t| && anchor < |t| && t[k].tip && t[k].active && t[anchor].active
    && (forall i :: 0 <= i < |t| && t[i].tip ==> i == k)
    && (forall i, j :: 0 <= i < |t| && 0 <= j < |t| && t[i].active && t[j].active && t[i].h.height == t[j].h.height
          ==> i == j)
    && (forall i :: 0 <= i < |t| && t[i].active ==> t[anchor].h.height <= t[i].h.height <= t[k].h.height)
    && (forall i :: 0 <= i < |t| && t[i].active && i != anchor ==>
          exists j :: 0 <= j < |t| && t[j].active && t[j].h.hash == t[i].h.prev
                      && t[j].h.height + 1 == t[i].h.height)
    && (forall j :: 0 <= j < |t| ==> t[anchor].h.prev == ZERO_HASH || t[j].h.hash != t[anchor].h.prev)
  }

  /** An active row of a clean store: its height, its rank, its parent. */
  lemma {:induction false} CleanRow(t: seq<Row>, k: nat, i: nat)
    requires CleanAt(t, k) && i < |t| && t[i].active
    ensures t[Root(Heads(t), k)].h.height <= t[i].h.height <= t[k].h.height
    ensures i != Root(Heads(t), k) ==>
              exists j :: 0 <= j < |t| && t[j].active && t[j].h.hash == t[i].h.prev
                          && t[j].h.height + 1 == t[i].h.height
  {
    var hs := Heads(t);
    PathAt(hs, k, i);
    PathStep(hs, k, i);
    if i != Root(hs, k) {
      var j := Parent(hs, i).value;
      SoundPair(hs, i, j);
      assert t[j].active && t[j].h.hash == t[i].h.prev;
    }
  }

  lemma {:induction false} CleanRowsApart(t: seq<Row>, k: nat, i: nat, j: nat)
    requires CleanAt(t, k) && i < |t| && j < |t| && t[i].active && t[j].active
    requires t[i].h.height == t[j].h.height
    ensures i == j
  {
    PathAt(Heads(t), k, i);
    PathAt(Heads(t), k, j);
  }

  lemma {:induction false} CleanIsOneLinkedChain(t: seq<Row>, k: nat)
    requires CleanAt(t, k)
    ensures OneLinkedChain(t, k, Root(Heads(t), k))
  {
    hide Path, Sound, Root;
    PathSelf(Heads(t), k);
    PathRoot(Heads(t), k);
    forall i | 0 <= i < |t| && t[i].active
      ensures t[Root(Heads(t), k)].h.height <= t[i].h.height <= t[k].h.height
      ensures i != Root(Heads(t), k) ==>
                exists j :: 0 <= j < |t| && t[j].active && t[j].h.hash == t[i].h.prev
                            && t[j].h.height + 1 == t[i].h.height
    {
      CleanRow(t, k, i);
    }
    forall i, j | 0 <= i < |t| && 0 <= j < |t| && t[i].active && t[j].active && t[i].h.height == t[j].h.height
      ensures i == j
    {
      CleanRowsApart(t, k, i, j);
    }
  }

  /** The last row of a path has no stored parent. */
  lemma {:induction false} PathRoot(hs: seq<Header>, k: nat)
    requires Sound(hs) && k < |hs|
    ensures Parent(hs, Root(hs, k)).None?
    decreases hs[k].height
  {
    match Parent(hs, k) {
      case None =>
      case Some(q) =>
        SoundPair(hs, k, q);
        PathRoot(hs, q);
    }
  }

  /** Only one row can be the tip of a clean store, and the tip read finds it. */
  lemma {:induction false} CleanTip(t: seq<Row>, k: nat)
    requires CleanAt(t, k)
    ensures ChainTip(t) == Some(k)
    ensures t[k].active
  {
    var r := ChainTip(t);
    assert t[k].tip;
    assert k in Path(Heads(t), k);
  }

  // ── Appending a row ──────────────────────────────────────────────────────

  /** No row of the tip's path names `n` as its parent: such a row would be the
      anchor, and `n` would stand right below it. */
  lemma {:induction false} NoPathRowNames(t: seq<Row>, k: nat, n: Header)
    requires Sound(Heads(t)) && k < |t| && Fits(Heads(t), n)
    requires t[Root(Heads(t), k)].h.height == 0 || t[Root(Heads(t), k)].h.height != n.height + 1
    ensures forall j :: j in Path(Heads(t), k) ==> Heads(t)[j].prev != n.hash
  {
    var hs := Heads(t);
    forall j | j in Path(hs, k) ensures hs[j].prev != n.hash {
      PathStep(hs, k, j);
      if Parent(hs, j).Some? {
        assert hs[Parent(hs, j).value].hash == hs[j].prev;
      } else {
        assert j == Root(hs, k);
      }
    }
  }

  /** The path of the tip when such a row is appended. */
  lemma {:induction false} AppendPath(t: seq<Row>, k: nat, row: Row)
    requires Sound(Heads(t)) && k < |t| && Fits(Heads(t), row.h)
    requires t[Root(Heads(t), k)].h.height == 0 || t[Root(Heads(t), k)].h.height != row.h.height + 1
    ensures Sound(Heads(t + [row])) && Path(Heads(t + [row]), k) == Path(Heads(t), k)
  {
    var hs := Heads(t);
    assert Heads(t + [row]) == hs + [row.h];
    SoundAppend(hs, row.h);
    NoPathRowNames(t, k, row.h);
    PathAppend(hs, row.h, k);
  }

  /** A row inserted inactive keeps a clean store clean. */
  lemma {:induction false} AppendInactive(p: Params, t: seq<Row>, k: nat, row: Row)
    requires GoodAt(p, t, k) && LinksTrue(t) && Fits(Heads(t), row.h) && !row.active && !row.tip
    requires t[Root(Heads(t), k)].h.height == 0 || t[Root(Heads(t), k)].h.height != row.h.height + 1
    requires row.link.Some? ==> row.link.value < |t| && t[row.link.value].h.hash == row.h.prev
    ensures GoodAt(p, t + [row], k) && LinksTrue(t + [row])
  {
    hide Sound, Fits, Path;
    AppendPath(t, k, row);
    AppendLinks(t, row);
    var u := t + [row];
    forall i | 0 <= i < |u| ensures u[i].active <==> i in Path(Heads(u), k) {
      assert i < |t| ==> u[i] == t[i];
    }
  }

  lemma {:induction false} AppendLinks(t: seq<Row>, row: Row)
    requires LinksTrue(t)
    requires row.link.Some? ==> row.link.value < |t| && t[row.link.value].h.hash == row.h.prev
    ensures LinksTrue(t + [row])
  {
    var u := t + [row];
    forall i | 0 <= i < |u| && u[i].link.Some?
      ensures u[i].link.value < |u| && u[u[i].link.value].h.hash == u[i].h.prev
    {
      if i < |t| { assert u[i] == t[i]; assert u[t[i].link.value] == t[t[i].link.value]; }
      else { assert u[row.link.value] == t[row.link.value]; }
    }
  }

  // ── Moving the tip ───────────────────────────────────────────────────────

  /** `update_chain_tip` (src/storage.rs:711-720). */
  function TipMove(hash: Hash): seq<Stmt> {
    [ClearChainTip, SetChainTipActive(hash)]
  }

  lemma {:induction false} TipMoveEffect(db: Db, n: nat)
    requires Sound(Heads(db.rows)) && n < |db.rows|
    ensures var r := Run(db, TipMove(db.rows[n].h.hash));
            && r.pending == db.pending && |r.rows| == |db.rows| && Heads(r.rows) == Heads(db.rows)
            && forall i {:trigger r.rows[i]} :: 0 <= i < |db.rows| ==>
                 r.rows[i] == db.rows[i].(tip := i == n, active := i == n || db.rows[i].active)
  {
    var x := db.rows[n].h.hash;
    RunTwo(db, ClearChainTip, SetChainTipActive(x));
    var e := Exec(db, ClearChainTip);
    forall i | 0 <= i < |db.rows| ensures db.rows[i].h.hash == x ==> i == n {
      SoundPair(Heads(db.rows), i, n);
    }
  }

  /** Flags are all that differs between two tables. */
  ghost predicate SameButFlags(t: seq<Row>, u: seq<Row>) {
    |t| == |u| && forall i {:trigger u[i]} :: 0 <= i < |t| ==>
      u[i].h == t[i].h && u[i].link == t[i].link && u[i].work == t[i].work
  }

  lemma {:induction false} FlagsKeep(t: seq<Row>, u: seq<Row>)
    requires SameButFlags(t, u)
    ensures Heads(u) == Heads(t) && (LinksTrue(t) ==> LinksTrue(u))
  {
    assert forall i :: 0 <= i < |t| ==> u[i].h == t[i].h;
  }

  /** The ancestry of a row up to an ancestor's height is the ancestor's own. */
  lemma {:induction false} PathBelow(hs: seq<Header>, k: nat, c: nat, i: nat)
    requires Sound(hs) && k < |hs| && c in Path(hs, k) && i < |hs|
    ensures c < |hs|
    ensures i in Path(hs, k) && hs[i].height <= hs[c].height <==> i in Path(hs, c)
  {
    PathAt(hs, k, c);
    PathMono(hs, k, c);
    if i in Path(hs, k) && hs[i].height <= hs[c].height {
      PathAt(hs, k, i);
      assert Path(hs, c)[hs[c].height - hs[i].height] == i;
    }
    if i in Path(hs, c) {
      PathAt(hs, c, i);
    }
  }

  lemma {:induction false} RootSame(hs: seq<Header>, k: nat, c: nat)
    requires Sound(hs) && k < |hs| && c in Path(hs, k)
    ensures c < |hs| && Root(hs, c) == Root(hs, k)
  {
    PathAt(hs, k, c);
  }

  /** A reorg from the tip to a row that shares an ancestor with it. */
  lemma {:induction false} ReorgKeepsClean(p: Params, a: Db, b: Db, k: nat, n: nat, c: nat)
    requires GoodAt(p, a.rows, k) && LinksTrue(a.rows) && n < |a.rows|
    requires Common(Heads(a.rows), k, n, c) && c < |a.rows| && Reorged(a, b, n, c)
    ensures GoodAt(p, b.rows, n) && LinksTrue(b.rows)
  {
    hide Path, Sound;
    var hs := Heads(a.rows);
    FlagsKeep(a.rows, b.rows);
    forall i | 0 <= i < |b.rows| ensures b.rows[i].active <==> i in Path(hs, n) {
      PathBelow(hs, k, c, i);
      PathBelow(hs, n, c, i);
      PathSelf(hs, n);
      assert b.rows[i] == ReorgRow(a.rows, n, c, i);
    }
    forall i | 0 <= i < |b.rows| ensures b.rows[i].tip <==> i == n {
      assert b.rows[i] == ReorgRow(a.rows, n, c, i);
    }
    RootSame(hs, k, c);
    RootSame(hs, n, c);
    assert b.rows[Root(hs, n)].h == hs[Root(hs, n)];
  }

  lemma {:induction false} PathSelf(hs: seq<Header>, n: nat)
    requires Sound(hs) && n < |hs|
    ensures n in Path(hs, n)
  {
    assert Path(hs, n)[0] == n;
  }

  /** The tip moves to a stored child of the tip. */
  lemma {:induction false} TipMoveKeepsClean(p: Params, db: Db, k: nat, n: nat)
    requires GoodAt(p, db.rows, k) && LinksTrue(db.rows) && n < |db.rows|
    requires Parent(Heads(db.rows), n) == Some(k)
    ensures GoodAt(p, Run(db, TipMove(db.rows[n].h.hash)).rows, n)
    ensures LinksTrue(Run(db, TipMove(db.rows[n].h.hash)).rows)
  {
    var hs := Heads(db.rows);
    var u := Run(db, TipMove(db.rows[n].h.hash)).rows;
    hide Run, Sound, Path, Root, Heads, TipMove, CleanAt, LinksTrue, SameButFlags;
    TipMoveEffect(db, n);
    MovedFlags(db.rows, u, n);
    FlagsKeep(db.rows, u);
    PathCons(hs, n, k);
    MovedActive(db.rows, u, k, n);
    assert u[Root(hs, n)].h == db.rows[Root(hs, k)].h;
  }

  lemma {:induction false} MovedFlags(t: seq<Row>, u: seq<Row>, n: nat)
    requires |u| == |t|
    requires forall i {:trigger u[i]} :: 0 <= i < |t| ==> u[i] == t[i].(tip := i == n, active := i == n || t[i].active)
    ensures SameButFlags(t, u)
  {
  }

  lemma {:induction false} MovedActive(t: seq<Row>, u: seq<Row>, k: nat, n: nat)
    requires CleanAt(t, k) && Sound(Heads(t)) && k < |t| && n < |t| && |u| == |t| && Heads(u) == Heads(t)
    requires forall i {:trigger u[i]} :: 0 <= i < |t| ==> u[i] == t[i].(tip := i == n, active := i == n || t[i].active)
    requires forall i :: i in Path(Heads(t), n) <==> i == n || i in Path(Heads(t), k)
    ensures CleanAt(u, n)
  {
    hide Sound, Path, Heads;
    forall i | 0 <= i < |u| ensures u[i].active <==> i in Path(Heads(u), n) {
      assert u[i].active <==> i == n || t[i].active;
    }
    forall i | 0 <= i < |u| ensures u[i].tip <==> i == n { assert u[i] == t[i].(tip := i == n, active := i == n || t[i].active); }
  }

  /** Setting the tip where it is changes nothing. */
  lemma {:induction false} TipMoveIdle(db: Db, n: nat)
    requires CleanAt(db.rows, n)
    ensures Run(db, TipMove(db.rows[n].h.hash)) == db
  {
    hide Run, Sound;
    var r := Run(db, TipMove(db.rows[n].h.hash));
    TipMoveEffect(db, n);
    PathSelf(Heads(db.rows), n);
    forall i | 0 <= i < |db.rows| ensures r.rows[i] == db.rows[i] {
      assert db.rows[i].tip <==> i == n;
    }
    assert r.rows == db.rows;
  }

  // ── The atomic extension ─────────────────────────────────────────────────

  /** The one transaction of a header that extends the tip or starts the store
      (src/storage.rs:667-676). */
  function Extension(row: Row): seq<Stmt> {
    [Insert(row)] + TipMove(row.h.hash)
  }

  /** The table after it. */
  ghost predicate Extended(t: seq<Row>, u: seq<Row>, row: Row) {
    && |u| == |t| + 1
    && (forall i {:trigger u[i]} :: 0 <= i < |t| ==> u[i] == t[i].(tip := false))
    && u[|t|] == row.(tip := true, active := true)
  }

  lemma {:induction false} ExtensionEffect(db: Db, row: Row)
    requires Sound(Heads(db.rows)) && Fits(Heads(db.rows), row.h)
    ensures Extended(db.rows, Run(db, Extension(row)).rows, row)
    ensures Run(db, Extension(row)).pending == db.pending
  {
    hide Run;
    var e := Exec(db, Insert(row));
    InsertEffect(db, row);
    assert Heads(e.rows) == Heads(db.rows) + [row.h];
    SoundAppend(Heads(db.rows), row.h);
    RunAppend(db, [Insert(row)], TipMove(row.h.hash));
    RunOne(db, Insert(row));
    TipMoveEffect(e, |db.rows|);
  }

  lemma {:induction false} InsertEffect(db: Db, row: Row)
    requires Fits(Heads(db.rows), row.h)
    ensures Exec(db, Insert(row)) == db.(rows := db.rows + [row])
  {
    var r := Find(Heads(db.rows), row.h.hash);
    assert r.None?;
  }

  lemma {:induction false} ExtensionKeepsClean(p: Params, t: seq<Row>, u: seq<Row>, k: nat, row: Row)
    requires GoodAt(p, t, k) && LinksTrue(t) && Fits(Heads(t), row.h)
    requires row.h.prev == t[k].h.hash && row.link == Some(k) && Extended(t, u, row)
    requires t[Root(Heads(t), k)].h.height == 0 || t[Root(Heads(t), k)].h.height != row.h.height + 1
    ensures GoodAt(p, u, |t|) && LinksTrue(u)
  {
    hide Sound, Fits, Path, Root, Heads;
    var n := |t|;
    AppendPath(t, k, row);
    AppendLinks(t, row);
    var v := t + [row];
    assert SameButFlags(v, u);
    FlagsKeep(v, u);
    RootLow(t, k, row);
    HeadAt(u, n);
    HeadAt(u, k);
    ParentIs(Heads(u), n, k);
    PathCons(Heads(u), n, k);
    ExtendedActive(t, u, k, row);
    assert u[Root(Heads(u), n)].h == t[Root(Heads(t), k)].h;
  }

  lemma {:induction false} ExtendedActive(t: seq<Row>, u: seq<Row>, k: nat, row: Row)
    requires CleanAt(t, k) && Extended(t, u, row) && Sound(Heads(u)) && Sound(Heads(t)) && k < |t|
    requires Path(Heads(u), k) == Path(Heads(t), k)
    requires forall i :: i in Path(Heads(u), |t|) <==> i == |t| || i in Path(Heads(u), k)
    ensures CleanAt(u, |t|)
  {
    hide Sound, Path, Heads;
    forall i | 0 <= i < |u| ensures u[i].active <==> i in Path(Heads(u), |t|) {
      assert i < |t| ==> u[i].active == t[i].active;
    }
  }

  lemma {:induction false} RootLow(t: seq<Row>, k: nat, row: Row)
    requires Sound(Heads(t)) && k < |t| && Sound(Heads(t + [row]))
    requires Path(Heads(t + [row]), k) == Path(Heads(t), k)
    ensures Root(Heads(t + [row]), k) == Root(Heads(t), k) && Root(Heads(t), k) < |t|
  {
  }

  lemma {:induction false} PathCons(hs: seq<Header>, n: nat, k: nat)
    requires Sound(hs) && n < |hs| && Parent(hs, n) == Some(k)
    ensures k < |hs| && Path(hs, n) == [n] + Path(hs, k) && Root(hs, n) == Root(hs, k)
    ensures forall i :: i in Path(hs, n) <==> i == n || i in Path(hs, k)
  {
  }

  lemma {:induction false} ParentIs(hs: seq<Header>, n: nat, k: nat)
    requires Sound(hs) && n < |hs| && k < |hs| && hs[n].prev == hs[k].hash
    ensures Parent(hs, n) == Some(k)
  {
    SoundPair(hs, k, k);
    var q := Find(hs, hs[n].prev);
    if q.Some? { SoundPair(hs, q.value, k); }
  }

  /** A lone header is its own path. */
  lemma {:induction false} LonePath(h: Header)
    requires Fits([], h)
    ensures Sound([h]) && Path([h], 0) == [0] && Root([h], 0) == 0
  {
    SoundAppend([], h);
    assert [] + [h] == [h];
    assert Parent([h], 0).None?;
  }

  /** The first header of an empty store is its anchor and its tip. */
  lemma {:induction false} FirstRowIsClean(p: Params, u: seq<Row>, row: Row)
    requires Fits([], row.h) && Vouched(p, row.h) && row.link.None? && Extended([], u, row)
    ensures GoodAt(p, u, 0) && LinksTrue(u)
  {
    LonePath(row.h);
    hide Sound, Path, Fits, Root, Vouched;
    assert |u| == 1 && u[0] == row.(tip := true, active := true);
    assert Heads(u) == [row.h];
  }
}
