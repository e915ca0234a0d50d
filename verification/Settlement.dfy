/** What one transaction of a live write may deactivate: at most 400 rows, all
    nearer the tip than any settled line. */
module Settlement {
  import opened Wrappers
  import opened Headers
  import opened HeaderTable
  import opened Ancestor
  import opened CleanStore
  import opened Live
  import E = Edge

  ghost function TipHeight(t: seq<Row>): Option<nat> {
    match ChainTip(t)
    case Some(k) => Some(t[k].h.height)
    case None => None
  }

  ghost function Deactivated(t: seq<Row>, u: seq<Row>): set<nat> {
    set i | 0 <= i < |t| && i < |u| && t[i].active && !u[i].active
  }

  /** One transaction: at most 404 statements, at most 400 rows deactivated, all
      strictly above the tip less 400. */
  ghost predicate Bounded(a: Db, tx: seq<Stmt>) {
    var b := Run(a, tx);
    && |tx| <= 404
    && |Deactivated(a.rows, b.rows)| <= 400
    && (forall i :: i in Deactivated(a.rows, b.rows) ==>
          TipHeight(a.rows).Some? && TipHeight(a.rows).value < a.rows[i].h.height + 400)
  }

  ghost predicate AllBounded(db: Db, txs: seq<seq<Stmt>>)
    decreases |txs|
  {
    txs == [] || (Bounded(db, txs[0]) && AllBounded(Run(db, txs[0]), txs[1..]))
  }

  lemma {:induction false} AllBoundedCons(db: Db, tx: seq<Stmt>, rest: seq<seq<Stmt>>)
    requires Bounded(db, tx) && AllBounded(Run(db, tx), rest)
    ensures AllBounded(db, [tx] + rest)
  {
    assert ([tx] + rest)[1..] == rest;
  }

  lemma {:induction false} AllBoundedOne(db: Db, tx: seq<Stmt>)
    requires Bounded(db, tx)
    ensures AllBounded(db, [tx])
  {
    hide Bounded;
    AllBoundedNone(Run(db, tx));
    AllBoundedCons(db, tx, []);
    assert [tx] + [] == [tx];
  }

  lemma {:induction false} AllBoundedNone(db: Db)
    ensures AllBounded(db, [])
  {
  }

  // ── Transactions that deactivate nothing ─────────────────────────────────

  predicate Harmless(s: Stmt) {
    s.Insert? || s.ClearChainTip? || s.SetChainTipActive? || s.RelinkHeader?
  }

  ghost predicate KeepsActive(t: seq<Row>, u: seq<Row>) {
    |t| <= |u| && forall i {:trigger u[i]} :: 0 <= i < |t| && t[i].active ==> u[i].active
  }

  lemma {:induction false} HarmlessKeeps(db: Db, stmts: seq<Stmt>)
    requires forall i :: 0 <= i < |stmts| ==> Harmless(stmts[i])
    ensures KeepsActive(db.rows, Run(db, stmts).rows)
    decreases |stmts|
  {
    if stmts != [] {
      var next := Exec(db, stmts[0]);
      ExecKeeps(db, stmts[0]);
      hide Exec, Harmless;
      assert forall i :: 0 <= i < |stmts| - 1 ==> stmts[1..][i] == stmts[i + 1];
      HarmlessKeeps(next, stmts[1..]);
    }
  }

  lemma {:induction false} ExecKeeps(db: Db, s: Stmt)
    requires Harmless(s)
    ensures KeepsActive(db.rows, Exec(db, s).rows)
  {
  }

  lemma {:induction false} HarmlessBounded(db: Db, tx: seq<Stmt>)
    requires |tx| <= 404 && forall i :: 0 <= i < |tx| ==> Harmless(tx[i])
    ensures Bounded(db, tx)
  {
    hide Run, Harmless;
    HarmlessKeeps(db, tx);
    assert Deactivated(db.rows, Run(db, tx).rows) == {};
  }

  // ── The reorg transaction ────────────────────────────────────────────────

  ghost function SeqSet(s: seq<nat>): set<nat> {
    set i | i in s
  }

  lemma {:induction false} SeqSetSize(s: seq<nat>)
    ensures |SeqSet(s)| <= |s|
    decreases |s|
  {
    if s != [] {
      var n := |s| - 1;
      SeqSetSize(s[..n]);
      assert SeqSet(s) == SeqSet(s[..n]) + {s[n]};
    }
  }

  lemma {:induction false} SubsetSize(a: set<nat>, b: set<nat>)
    requires a <= b
    ensures |a| <= |b|
  {
    assert b == a + (b - a);
  }

  /** The active rows above an ancestor of the tip are the first rows of the
      tip's path. */
  lemma {:induction false} ActiveAboveOnPath(t: seq<Row>, k: nat, c: nat, i: nat)
    requires CleanAt(t, k) && c in Path(Heads(t), k) && c < |t|
    requires i < |t| && t[i].active && t[c].h.height < t[i].h.height
    ensures t[c].h.height <= t[k].h.height
    ensures var d := t[k].h.height - t[c].h.height; d <= |Path(Heads(t), k)| && i in Path(Heads(t), k)[..d]
    ensures t[i].h.height <= t[k].h.height
  {
    var hs := Heads(t);
    PathAt(hs, k, c);
    PathAt(hs, k, i);
    var d := t[k].h.height - t[c].h.height;
    assert Path(hs, k)[..d][hs[k].height - hs[i].height] == i;
  }

  lemma {:induction false} DeactivatedFew(a: Db, b: Db, k: nat, n: nat, c: nat)
    requires CleanAt(a.rows, k) && k < |a.rows| && n < |a.rows| && c < |a.rows| && Sound(Heads(a.rows))
    requires c in Path(Heads(a.rows), k) && Reorged(a, b, n, c)
    ensures a.rows[c].h.height <= a.rows[k].h.height
    ensures |Deactivated(a.rows, b.rows)| <= a.rows[k].h.height - a.rows[c].h.height
    ensures forall i :: i in Deactivated(a.rows, b.rows) ==> a.rows[c].h.height < a.rows[i].h.height
  {
    var path := Path(Heads(a.rows), k);
    var gone := Deactivated(a.rows, b.rows);
    PathAt(Heads(a.rows), k, c);
    hide Path, Sound, CleanAt;
    var d := a.rows[k].h.height - a.rows[c].h.height;
    forall i | i in gone ensures a.rows[c].h.height < a.rows[i].h.height && i in SeqSet(path[..d]) {
      assert b.rows[i] == ReorgRow(a.rows, n, c, i);
      ActiveAboveOnPath(a.rows, k, c, i);
    }
    SeqSetSize(path[..d]);
    SubsetSize(gone, SeqSet(path[..d]));
  }

  lemma {:induction false} ReorgBounded(p: Params, db: Db, k: nat, n: nat, c: nat)
    requires GoodAt(p, db.rows, k) && LinksTrue(db.rows) && n < |db.rows| && k < |db.rows| && Sound(Heads(db.rows))
    requires CommonAncestor(Heads(db.rows), n, k) == Some(c)
    ensures Bounded(db, ReorgBatch(Heads(db.rows), n, c))
  {
    hide Sound, Path, Run, Branch, Reorged;
    CleanTip(db.rows, k);
    ReorgEffect(db, n, c);
    DeactivatedFew(db, Run(db, ReorgBatch(Heads(db.rows), n, c)), k, n, c);
    ReorgLength(Heads(db.rows), n, c);
  }

  lemma {:induction false} ReorgLength(hs: seq<Header>, n: nat, c: nat)
    requires Sound(hs) && n < |hs| && c < |hs| && hs[n].height <= hs[c].height + 400
    ensures |ReorgBatch(hs, n, c)| <= 404
  {
  }

  lemma {:induction false} ReorgToBounded(p: Params, db: Db, k: nat, n: nat)
    requires GoodAt(p, db.rows, k) && LinksTrue(db.rows) && n < |db.rows| && k < |db.rows| && Sound(Heads(db.rows))
    ensures AllBounded(db, ReorgTo(db, n, k).txs)
  {
    hide Sound, Path, Run, Branch, Bounded, ReorgBatch;
    var hs := Heads(db.rows);
    if CommonAncestor(hs, n, k).Some? {
      var c := CommonAncestor(hs, n, k).value;
      var tx := ReorgBatch(hs, n, c);
      ReorgBounded(p, db, k, n, c);
      AllBoundedOne(db, tx);
      HarmlessBounded(Run(db, tx), TipMove(hs[n].hash));
      AllBoundedOne(Run(db, tx), TipMove(hs[n].hash));
      AllBoundedCons(db, tx, [TipMove(hs[n].hash)]);
      assert [tx] + [] == [tx];
    }
  }

  // ── Whole calls ──────────────────────────────────────────────────────────

  /** Every transaction of `insert_header` on a clean store is bounded. */
  lemma {:induction false} InsertBounded(p: Params, db: Db, h: Header)
    requires Good(p, db.rows) && p.Ascending() && Admissible(Heads(db.rows), h)
    ensures AllBounded(db, InsertHeader(p, db, h).txs)
  {
    if db.rows == [] {
      assert ChainTip(db.rows).None?;
      FirstBounded(p, db, h);
    } else if InsertHeader(p, db, h).txs != [] {
      var k: nat :| GoodAt(p, db.rows, k);
      assert CleanAt(db.rows, k);
      InsertBoundedAt(p, db, k, h);
    }
  }

  lemma {:induction false} FirstBounded(p: Params, db: Db, h: Header)
    requires Sound(Heads(db.rows)) && Admissible(Heads(db.rows), h) && ChainTip(db.rows).None?
    ensures AllBounded(db, InsertHeader(p, db, h).txs)
  {
    hide Run, Bounded, Sound, Judge, AllBounded;
    var row := NewRow(p, db.rows, h, true);
    HarmlessBounded(db, Extension(row));
    AllBoundedOne(db, Extension(row));
    AllBoundedNone(db);
  }

  lemma {:induction false} InsertTxBounded(db: Db, row: Row)
    ensures Bounded(db, [Insert(row)]) && Bounded(db, Extension(row))
  {
    hide Run, Bounded;
    HarmlessBounded(db, [Insert(row)]);
    HarmlessBounded(db, Extension(row));
  }

  lemma {:induction false} InsertBoundedAt(p: Params, db: Db, k: nat, h: Header)
    requires GoodAt(p, db.rows, k) && LinksTrue(db.rows) && p.Ascending() && Admissible(Heads(db.rows), h)
    requires Sound(Heads(db.rows)) && k < |db.rows| && InsertHeader(p, db, h).txs != []
    ensures AllBounded(db, InsertHeader(p, db, h).txs)
  {
    var t := db.rows;
    var row := NewRow(p, t, h, false);
    hide *;
    InsertTxBounded(db, row);
    InsertTxBounded(db, NewRow(p, t, h, true));
    InsertShape(p, db, k, h);
    AllBoundedOne(db, [Insert(row)]);
    AllBoundedOne(db, Extension(NewRow(p, t, h, true)));
    if Judge(p, t, h).1 && t[k].work < row.work && h.prev != t[k].h.hash {
      InsertInactiveClean(p, db, k, h);
      ReorgToBounded(p, Run(db, [Insert(row)]), k, |t|);
      AllBoundedCons(db, [Insert(row)], ReorgTo(Run(db, [Insert(row)]), |t|, k).txs);
    }
  }

  /** Every transaction of `relink_orphan_and_reevaluate` likewise. */
  lemma {:induction false} RelinkBounded(p: Params, db: Db, hash: Hash)
    requires Good(p, db.rows)
    ensures AllBounded(db, RelinkOrphan(p, db, hash).txs)
  {
    if RelinkOrphan(p, db, hash).txs == [] {
      AllBoundedNone(db);
    } else {
      assert db.rows != [] by { assert |Heads(db.rows)| == |db.rows|; }
      var k: nat :| GoodAt(p, db.rows, k);
      assert CleanAt(db.rows, k);
      RelinkBoundedAt(p, db, k, hash);
    }
  }

  lemma {:induction false} RelinkBoundedAt(p: Params, db: Db, k: nat, hash: Hash)
    requires GoodAt(p, db.rows, k) && LinksTrue(db.rows) && Sound(Heads(db.rows)) && k < |db.rows|
    requires RelinkOrphan(p, db, hash).txs != []
    ensures AllBounded(db, RelinkOrphan(p, db, hash).txs)
  {
    var t := db.rows;
    var hs := Heads(t);
    hide *;
    RelinkShape(p, db, k, hash);
    var i := Find(hs, hash).value;
    var q := Parent(hs, i).value;
    var tx := RelinkTx(p, t, i, q);
    RelinkTxBounded(p, db, i, q);
    AllBoundedOne(db, tx);
    TipMoveBounded(Run(db, tx), hash);
    AllBoundedOne(Run(db, tx), TipMove(hash));
    AllBoundedCons(db, tx, [TipMove(hash)]);
    assert [tx] + [TipMove(hash)] == [tx, TipMove(hash)];
    RelinkTxClean(p, db, k, i, q);
    ReorgToBounded(p, Run(db, tx), k, i);
    AllBoundedCons(db, tx, ReorgTo(Run(db, tx), i, k).txs);
  }

  lemma {:induction false} RelinkTxBounded(p: Params, db: Db, i: nat, q: nat)
    requires i < |db.rows| && q < |db.rows|
    ensures Bounded(db, RelinkTx(p, db.rows, i, q))
  {
    HarmlessBounded(db, RelinkTx(p, db.rows, i, q));
  }

  lemma {:induction false} TipMoveBounded(db: Db, hash: Hash)
    ensures Bounded(db, TipMove(hash))
  {
    HarmlessBounded(db, TipMove(hash));
  }

  // ── The settled line ─────────────────────────────────────────────────────

  /** A bounded transaction deactivates no row the edge calls settled, whatever
      `HEADER_EDGE_DEPTH` holds. */
  lemma {:induction false} NoSettledRowDeactivated(db: Db, tx: seq<Stmt>, raw: Option<string>, i: nat)
    requires Bounded(db, tx) && i < |db.rows| && i < |Run(db, tx).rows|
    requires E.Settled(TipHeight(db.rows), db.rows[i].h.height, E.Parse(raw).Line())
    ensures db.rows[i].active ==> Run(db, tx).rows[i].active
  {
    hide Run;
    var u := Run(db, tx).rows;
    assert db.rows[i].active && !u[i].active ==> i in Deactivated(db.rows, u);
  }

  /** An active row at a height the edge calls settled. */
  ghost predicate ServedSettled(db: Db, i: nat, raw: Option<string>)
    requires i < |db.rows|
  {
    db.rows[i].active && E.Settled(TipHeight(db.rows), db.rows[i].h.height, E.Parse(raw).Line())
  }

  /** Through all the transactions of a call, the row of a height settled at
      each of them is never taken off. */
  ghost predicate SettledKept(db: Db, txs: seq<seq<Stmt>>, raw: Option<string>)
    decreases |txs|
  {
    txs == [] ||
    (&& |db.rows| <= |Run(db, txs[0]).rows|
     && (forall i {:trigger Run(db, txs[0]).rows[i]} :: 0 <= i < |db.rows| && ServedSettled(db, i, raw) ==>
           Run(db, txs[0]).rows[i].active)
     && SettledKept(Run(db, txs[0]), txs[1..], raw))
  }

  lemma {:induction false} RowsStay(db: Db, stmts: seq<Stmt>)
    ensures |db.rows| <= |Run(db, stmts).rows|
    decreases |stmts|
  {
    if stmts != [] {
      RowsStay(Exec(db, stmts[0]), stmts[1..]);
    }
  }

  lemma {:induction false} BoundedSettled(db: Db, txs: seq<seq<Stmt>>, raw: Option<string>)
    requires AllBounded(db, txs)
    ensures SettledKept(db, txs, raw)
    decreases |txs|
  {
    if txs != [] {
      hide Bounded, Run;
      RowsStay(db, txs[0]);
      forall i | 0 <= i < |db.rows| && ServedSettled(db, i, raw)
        ensures Run(db, txs[0]).rows[i].active
      {
        NoSettledRowDeactivated(db, txs[0], raw, i);
      }
      BoundedSettled(Run(db, txs[0]), txs[1..], raw);
    }
  }

  /** No live write on a clean store deactivates a row at a settled height, for
      every `HEADER_EDGE_DEPTH`. */
  lemma {:induction false} LiveWritesKeepSettledRows(p: Params, db: Db, h: Header, hash: Hash, raw: Option<string>)
    requires Good(p, db.rows) && p.Ascending() && Admissible(Heads(db.rows), h)
    ensures SettledKept(db, InsertHeader(p, db, h).txs, raw)
    ensures SettledKept(db, RelinkOrphan(p, db, hash).txs, raw)
  {
    InsertBounded(p, db, h);
    RelinkBounded(p, db, hash);
    BoundedSettled(db, InsertHeader(p, db, h).txs, raw);
    BoundedSettled(db, RelinkOrphan(p, db, hash).txs, raw);
  }
}
