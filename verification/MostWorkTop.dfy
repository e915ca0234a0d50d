/** No row with a parent link outworks the tip: what each live write that ran
    through keeps. */
module MostWorkTop {
  import opened Wrappers
  import opened Headers
  import opened HeaderTable
  import opened Ancestor
  import opened CleanStore
  import opened Live
  import opened Bulk
  import opened MostWork
  import opened Runs

  /** The rows with a parent link, all but `n`, have at most the work of row `k`. */
  ghost predicate LinkedBelow(t: seq<Row>, k: nat, n: Option<nat>)
    requires k < |t|
  {
    forall i :: 0 <= i < |t| && t[i].link.Some? && Some(i) != n ==> t[i].work <= t[k].work
  }

  ghost predicate TopLinked(t: seq<Row>) {
    match ChainTip(t)
    case Some(k) => LinkedBelow(t, k, None)
    case None => true
  }

  lemma {:induction false} TopAt(t: seq<Row>, k: nat)
    requires CleanAt(t, k)
    ensures k < |t| && (TopLinked(t) <==> LinkedBelow(t, k, None))
  {
    CleanTip(t, k);
  }

  /** The tip at a row that outworks the old one. */
  lemma {:induction false} MovedTop(t: seq<Row>, u: seq<Row>, k: nat, n: nat)
    requires k < |t| && LinkedBelow(t, k, Some(n)) && SameButFlags(t, u) && CleanAt(u, n)
    requires n < |t| && t[k].work < t[n].work
    ensures TopLinked(u)
  {
    CleanTip(u, n);
  }

  /** A reorg that finds its ancestor leaves the rows as they were but for their
      flags, and the row it was made for is the tip. */
  lemma {:induction false} ReorgLands(p: Params, db: Db, k: nat, n: nat)
    requires GoodAt(p, db.rows, k) && LinksTrue(db.rows) && n < |db.rows| && k < |db.rows|
    requires Sound(Heads(db.rows)) && ReorgTo(db, n, k).result != NoAncestor
    ensures var r := RunAll(db, ReorgTo(db, n, k).txs).rows; SameButFlags(db.rows, r) && GoodAt(p, r, n)
  {
    hide Sound, Run, ReorgBatch, Path, RunAll, TipMove, Reorged, SameButFlags;
    var hs := Heads(db.rows);
    var c := CommonAncestor(hs, n, k).value;
    var tx := ReorgBatch(hs, n, c);
    var db1 := Run(db, tx);
    ReorgTxClean(p, db, k, n, c);
    ReorgEffect(db, n, c);
    ReorgFlags(db, db1, n, c);
    TipMoveIdle(db1, n);
    assert db1.rows[n].h == hs[n];
    RunAllOne(db, tx);
    RunAllOne(db1, TipMove(hs[n].hash));
    RunAllCons(db, tx, [TipMove(hs[n].hash)]);
    assert [tx] + [] == [tx];
  }

  lemma {:induction false} ReorgTop(p: Params, db: Db, k: nat, n: nat)
    requires GoodAt(p, db.rows, k) && LinksTrue(db.rows) && n < |db.rows| && k < |db.rows|
    requires db.rows[k].work < db.rows[n].work && LinkedBelow(db.rows, k, Some(n))
    requires ReorgTo(db, n, k).result != NoAncestor && Sound(Heads(db.rows))
    ensures TopLinked(RunAll(db, ReorgTo(db, n, k).txs).rows)
  {
    hide Sound, Path, Root, LinkedBelow, TopLinked, SameButFlags, ReorgTo, RunAll;
    ReorgLands(p, db, k, n);
    MovedTop(db.rows, RunAll(db, ReorgTo(db, n, k).txs).rows, k, n);
  }

  lemma {:induction false} InsertedBelow(p: Params, t: seq<Row>, k: nat, h: Header)
    requires k < |t| && LinkedBelow(t, k, None)
    ensures var u := t + [NewRow(p, t, h, false)]; LinkedBelow(u, k, Some(|t|)) && u[k] == t[k]
  {
    hide NewRow;
  }

  lemma {:induction false} InsertedTop(p: Params, t: seq<Row>, k: nat, h: Header)
    requires k < |t| && LinkedBelow(t, k, None)
    requires NewRow(p, t, h, false).link.Some? ==> NewRow(p, t, h, false).work <= t[k].work
    ensures LinkedBelow(t + [NewRow(p, t, h, false)], k, None)
  {
    hide NewRow;
  }

  /** A header with a stored parent is anchored. */
  lemma {:induction false} LinkedAnchored(p: Params, t: seq<Row>, h: Header)
    requires Sound(Heads(t)) && Judge(p, t, h).0.None? && NewRow(p, t, h, false).link.Some?
    ensures Judge(p, t, h).1
  {
  }

  lemma {:induction false} InsertTop(p: Params, db: Db, k: nat, h: Header)
    requires GoodAt(p, db.rows, k) && LinksTrue(db.rows) && p.Ascending() && Admissible(Heads(db.rows), h)
    requires TopLinked(db.rows) && WorkLow(p, db.rows)
    requires InsertHeader(p, db, h).result != NoAncestor && InsertHeader(p, db, h).txs != []
    ensures TopLinked(RunAll(db, InsertHeader(p, db, h).txs).rows)
  {
    var t := db.rows;
    CleanSound(t, k);
    TopAt(t, k);
    hide *;
    InsertShape(p, db, k, h);
    var row := NewRow(p, t, h, false);
    if Judge(p, t, h).1 && t[k].work < row.work {
      if h.prev == t[k].h.hash {
        InsertTopExtension(p, db, k, h);
      } else {
        InsertTopReorg(p, db, k, h);
      }
    } else {
      InsertTopRow(p, db, k, h);
    }
  }

  lemma {:induction false} InsertTopRow(p: Params, db: Db, k: nat, h: Header)
    requires GoodAt(p, db.rows, k) && LinksTrue(db.rows) && WorkLow(p, db.rows) && p.Ascending() && k < |db.rows|
    requires Find(Heads(db.rows), h.hash).None? && Admissible(Heads(db.rows), h)
    requires Sound(Heads(db.rows)) && Judge(p, db.rows, h).0.None? && LinkedBelow(db.rows, k, None)
    requires !Judge(p, db.rows, h).1 || NewRow(p, db.rows, h, false).work <= db.rows[k].work
    ensures TopLinked(RunAll(db, [[Insert(NewRow(p, db.rows, h, false))]]).rows)
  {
    if NewRow(p, db.rows, h, false).link.Some? { LinkedAnchored(p, db.rows, h); }
    hide *;
    InsertRowClimbs(p, db, k, h);
    InsertedTop(p, db.rows, k, h);
    RunAllOne(db, [Insert(NewRow(p, db.rows, h, false))]);
    GoodTop(p, Run(db, [Insert(NewRow(p, db.rows, h, false))]).rows, k);
  }

  lemma {:induction false} GoodTop(p: Params, t: seq<Row>, k: nat)
    requires GoodAt(p, t, k)
    ensures k < |t| && (TopLinked(t) <==> LinkedBelow(t, k, None))
  {
    TopAt(t, k);
  }

  lemma {:induction false} InsertTopReorg(p: Params, db: Db, k: nat, h: Header)
    requires GoodAt(p, db.rows, k) && LinksTrue(db.rows) && WorkLow(p, db.rows) && p.Ascending() && k < |db.rows|
    requires Find(Heads(db.rows), h.hash).None? && Admissible(Heads(db.rows), h)
    requires Sound(Heads(db.rows)) && Judge(p, db.rows, h).0.None? && LinkedBelow(db.rows, k, None)
    requires db.rows[k].work < NewRow(p, db.rows, h, false).work
    ensures var row := NewRow(p, db.rows, h, false);
            var db1 := Run(db, [Insert(row)]);
            && Sound(Heads(db1.rows)) && k < |db1.rows| == |db.rows| + 1
            && (ReorgTo(db1, |db.rows|, k).result != NoAncestor ==>
                  TopLinked(RunAll(db, [[Insert(row)]] + ReorgTo(db1, |db.rows|, k).txs).rows))
  {
    hide *;
    var row := NewRow(p, db.rows, h, false);
    var db1 := Run(db, [Insert(row)]);
    InsertRowClimbs(p, db, k, h);
    InsertReorgClimbs(p, db, k, h);
    InsertedBelow(p, db.rows, k, h);
    if ReorgTo(db1, |db.rows|, k).result != NoAncestor {
      assert db1.rows[|db.rows|] == row;
      ReorgTop(p, db1, k, |db.rows|);
      RunAllCons(db, [Insert(row)], ReorgTo(db1, |db.rows|, k).txs);
    }
  }

  lemma {:induction false} InsertTopExtension(p: Params, db: Db, k: nat, h: Header)
    requires GoodAt(p, db.rows, k) && LinksTrue(db.rows) && WorkLow(p, db.rows) && p.Ascending() && k < |db.rows|
    requires Find(Heads(db.rows), h.hash).None? && Admissible(Heads(db.rows), h)
    requires Sound(Heads(db.rows)) && Judge(p, db.rows, h).0.None? && LinkedBelow(db.rows, k, None)
    requires h.prev == db.rows[k].h.hash && db.rows[k].work < NewRow(p, db.rows, h, false).work
    ensures TopLinked(RunAll(db, [Extension(NewRow(p, db.rows, h, true))]).rows)
  {
    hide Sound, Fits, Run, Judge, Heads, WorkLow, CleanAt, RunAll, LinkedBelow, TopLinked, Extended, NewRow;
    var row := NewRow(p, db.rows, h, true);
    assert row.work == NewRow(p, db.rows, h, false).work by { SameWork(p, db.rows, h); }
    var u := Run(db, Extension(row)).rows;
    InsertExtensionClean(p, db, k, h);
    RunAllOne(db, Extension(row));
    ExtendedTop(db.rows, u, k, row);
  }

  lemma {:induction false} SameWork(p: Params, t: seq<Row>, h: Header)
    ensures NewRow(p, t, h, true).work == NewRow(p, t, h, false).work
  {
  }

  lemma {:induction false} ExtendedTop(t: seq<Row>, u: seq<Row>, k: nat, row: Row)
    requires k < |t| && LinkedBelow(t, k, None) && Extended(t, u, row) && CleanAt(u, |t|) && t[k].work < row.work
    ensures TopLinked(u)
  {
    hide Sound, Heads;
    CleanTip(u, |t|);
  }

  // ── The relink ───────────────────────────────────────────────────────────

  lemma {:induction false} RelinkTop(p: Params, db: Db, k: nat, hash: Hash)
    requires GoodAt(p, db.rows, k) && LinksTrue(db.rows) && WorkLow(p, db.rows) && TopLinked(db.rows)
    requires Sound(Heads(db.rows))
    requires RelinkOrphan(p, db, hash).result != NoAncestor && RelinkOrphan(p, db, hash).txs != []
    ensures TopLinked(RunAll(db, RelinkOrphan(p, db, hash).txs).rows)
  {
    var t := db.rows;
    var hs := Heads(t);
    TopAt(t, k);
    hide *;
    RelinkShape(p, db, k, hash);
    var i := Find(hs, hash).value;
    var q := Parent(hs, i).value;
    var tx := RelinkTx(p, t, i, q);
    var db1 := Run(db, tx);
    RelinkTxClimbs(p, db, k, i, q);
    RelinkedBelow(p, db, k, i, q);
    SameRow(p, db, i, q, hash);
    if db1.rows[k].work < db1.rows[i].work {
      if t[i].h.prev == t[k].h.hash {
        AfterTipTop(p, db, tx, k, i);
      } else {
        AfterReorgTop(p, db, tx, k, i);
      }
    } else {
      RunAllOne(db, tx);
      StayTop(p, db1.rows, k, i);
    }
  }

  lemma {:induction false} StayTop(p: Params, t: seq<Row>, k: nat, i: nat)
    requires GoodAt(p, t, k) && k < |t| && i < |t| && LinkedBelow(t, k, Some(i)) && t[i].work <= t[k].work
    ensures TopLinked(t)
  {
    TopAt(t, k);
  }

  lemma {:induction false} RelinkedBelow(p: Params, db: Db, k: nat, i: nat, q: nat)
    requires k < |db.rows| && i < |db.rows| && Parent(Heads(db.rows), i) == Some(q)
    requires LinkedBelow(db.rows, k, None)
    requires WorkKept(db.rows, Run(db, RelinkTx(p, db.rows, i, q)).rows)
    ensures var u := Run(db, RelinkTx(p, db.rows, i, q)).rows; k < |u| && LinkedBelow(u, k, Some(i))
  {
    hide Run, Heads;
    RelinkEffect(p, db, i, q);
  }

  lemma {:induction false} AfterReorgTop(p: Params, db: Db, tx: seq<Stmt>, k: nat, i: nat)
    requires GoodAt(p, Run(db, tx).rows, k) && LinksTrue(Run(db, tx).rows) && Sound(Heads(Run(db, tx).rows))
    requires i < |Run(db, tx).rows| && k < |Run(db, tx).rows| && LinkedBelow(Run(db, tx).rows, k, Some(i))
    requires Run(db, tx).rows[k].work < Run(db, tx).rows[i].work
    requires ReorgTo(Run(db, tx), i, k).result != NoAncestor
    ensures TopLinked(RunAll(db, [tx] + ReorgTo(Run(db, tx), i, k).txs).rows)
  {
    hide *;
    ReorgTop(p, Run(db, tx), k, i);
    RunAllCons(db, tx, ReorgTo(Run(db, tx), i, k).txs);
  }

  lemma {:induction false} AfterTipTop(p: Params, db: Db, tx: seq<Stmt>, k: nat, i: nat)
    requires GoodAt(p, Run(db, tx).rows, k) && LinksTrue(Run(db, tx).rows) && Sound(Heads(Run(db, tx).rows))
    requires i < |Run(db, tx).rows| && k < |Run(db, tx).rows| && LinkedBelow(Run(db, tx).rows, k, Some(i))
    requires Run(db, tx).rows[k].work < Run(db, tx).rows[i].work
    requires Run(db, tx).rows[i].h.prev == Run(db, tx).rows[k].h.hash
    ensures TopLinked(RunAll(db, [tx, TipMove(Run(db, tx).rows[i].h.hash)]).rows)
  {
    hide *;
    var db1 := Run(db, tx);
    var move := TipMove(db1.rows[i].h.hash);
    TipTop(p, db1, k, i);
    RunAllOne(db1, move);
    RunAllCons(db, tx, [move]);
    assert [tx] + [move] == [tx, move];
  }

  lemma {:induction false} TipTop(p: Params, db: Db, k: nat, i: nat)
    requires GoodAt(p, db.rows, k) && LinksTrue(db.rows) && Sound(Heads(db.rows))
    requires i < |db.rows| && k < |db.rows| && LinkedBelow(db.rows, k, Some(i))
    requires db.rows[k].work < db.rows[i].work && db.rows[i].h.prev == db.rows[k].h.hash
    ensures TopLinked(Run(db, TipMove(db.rows[i].h.hash)).rows)
  {
    hide Sound, Run, TipMove, LinkedBelow, TopLinked, Path;
    ParentIs(Heads(db.rows), i, k);
    TipMoveKeepsClean(p, db, k, i);
    TipMoveEffect(db, i);
    MovedTop(db.rows, Run(db, TipMove(db.rows[i].h.hash)).rows, k, i);
  }

  // ── The live writes ──────────────────────────────────────────────────────

  lemma {:induction false} InsertOkTop(all: iset<Header>, p: Params, db: Db, h: Header)
    requires Inv(all, p, db) && h in all && TopLinked(db.rows) && WorkLow(p, db.rows)
    ensures Sound(Heads(db.rows)) && Admissible(Heads(db.rows), h)
    ensures InsertHeader(p, db, h).result != NoAncestor ==> TopLinked(RunAll(db, InsertHeader(p, db, h).txs).rows)
  {
    AgreeAdmits(all, Heads(db.rows), h);
    GoodSound(p, db.rows);
    if InsertHeader(p, db, h).txs == [] {
      RunAllNone(db);
    } else if db.rows == [] {
      FirstInsertTop(p, db, h);
    } else if InsertHeader(p, db, h).result != NoAncestor {
      var k: nat :| GoodAt(p, db.rows, k);
      hide InsertHeader, RunAll, TopLinked, GoodAt, WorkLow;
      InsertTop(p, db, k, h);
    }
  }

  lemma {:induction false} FirstInsertTop(p: Params, db: Db, h: Header)
    requires db.rows == [] && Sound(Heads(db.rows)) && Admissible(Heads(db.rows), h)
    requires InsertHeader(p, db, h).txs != []
    ensures TopLinked(RunAll(db, InsertHeader(p, db, h).txs).rows)
  {
    hide Run, RunAll;
    assert Heads(db.rows) == [];
    assert ChainTip(db.rows).None?;
    var row := NewRow(p, db.rows, h, true);
    ExtensionEffect(db, row);
    RunAllOne(db, Extension(row));
  }

  lemma {:induction false} RelinkOkTop(p: Params, db: Db, hash: Hash)
    requires Good(p, db.rows) && TopLinked(db.rows) && WorkLow(p, db.rows)
    ensures Sound(Heads(db.rows))
    ensures RelinkOrphan(p, db, hash).result != NoAncestor ==>
              TopLinked(RunAll(db, RelinkOrphan(p, db, hash).txs).rows)
  {
    if RelinkOrphan(p, db, hash).txs == [] {
      RunAllNone(db);
    } else if RelinkOrphan(p, db, hash).result != NoAncestor {
      assert db.rows != [] by { assert |Heads(db.rows)| == |db.rows|; }
      var k: nat :| GoodAt(p, db.rows, k);
      hide RelinkOrphan, RunAll, TopLinked, GoodAt, WorkLow;
      RelinkTop(p, db, k, hash);
    }
  }
}
