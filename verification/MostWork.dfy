/** The most-work rule over the live writes: the tip only ever moves to a row
    with more stored work, and no row's stored work falls. */
module MostWork {
  import opened Wrappers
  import opened Headers
  import opened HeaderTable
  import opened Ancestor
  import opened CleanStore
  import opened Live

  /** A row's work never exceeds its stored parent's plus its own: an orphan
      carries its own alone until it is relinked. */
  ghost predicate WorkLow(p: Params, t: seq<Row>) {
    forall i :: 0 <= i < |t| ==> t[i].work <= WorkBelow(t, i) + p.work(t[i].h.bits)
  }

  function WorkBelow(t: seq<Row>, i: nat): nat
    requires i < |t|
  {
    match Parent(Heads(t), i)
    case Some(q) => t[q].work
    case None => 0
  }

  /** No row is lost and no row's stored work falls. */
  ghost predicate WorkKept(t: seq<Row>, u: seq<Row>) {
    |t| <= |u| && forall i {:trigger u[i]} :: 0 <= i < |t| ==> u[i].h == t[i].h && t[i].work <= u[i].work
  }

  /** The tip's stored work does not fall, and rises strictly when the tip
      changes. */
  ghost predicate Rises(t: seq<Row>, u: seq<Row>) {
    var a, b := ChainTip(t), ChainTip(u);
    a.Some? ==> b.Some? && t[a.value].work <= u[b.value].work && (a != b ==> t[a.value].work < u[b.value].work)
  }

  ghost predicate Climbs(p: Params, t: seq<Row>, u: seq<Row>) {
    WorkLow(p, u) && WorkKept(t, u) && Rises(t, u)
  }

  lemma {:induction false} ClimbsOn(p: Params, t: seq<Row>, u: seq<Row>, v: seq<Row>)
    requires Climbs(p, t, u) && Climbs(p, u, v)
    ensures Climbs(p, t, v)
  {
  }

  lemma {:induction false} ClimbsStay(p: Params, t: seq<Row>)
    requires WorkLow(p, t)
    ensures Climbs(p, t, t)
  {
  }

  /** Every transaction of a list climbs. */
  ghost predicate AllClimb(p: Params, db: Db, txs: seq<seq<Stmt>>)
    decreases |txs|
  {
    txs == [] || (Climbs(p, db.rows, Run(db, txs[0]).rows) && AllClimb(p, Run(db, txs[0]), txs[1..]))
  }

  lemma {:induction false} AllClimbCons(p: Params, db: Db, tx: seq<Stmt>, rest: seq<seq<Stmt>>)
    requires Climbs(p, db.rows, Run(db, tx).rows) && AllClimb(p, Run(db, tx), rest)
    ensures AllClimb(p, db, [tx] + rest)
  {
    assert ([tx] + rest)[1..] == rest;
  }

  lemma {:induction false} AllClimbOne(p: Params, db: Db, tx: seq<Stmt>)
    requires Climbs(p, db.rows, Run(db, tx).rows)
    ensures AllClimb(p, db, [tx])
  {
    hide Climbs;
    assert AllClimb(p, Run(db, tx), []);
    AllClimbCons(p, db, tx, []);
    assert [tx] + [] == [tx];
  }

  lemma {:induction false} WorkBelowSame(t: seq<Row>, u: seq<Row>, i: nat)
    requires Heads(u) == Heads(t) && |u| == |t| && i < |t| && WorkKept(t, u)
    ensures WorkBelow(t, i) <= WorkBelow(u, i)
  {
  }

  /** Tables that differ in flags alone. */
  lemma {:induction false} WorkLowFlags(p: Params, t: seq<Row>, u: seq<Row>)
    requires WorkLow(p, t) && SameButFlags(t, u)
    ensures WorkLow(p, u) && WorkKept(t, u)
  {
    FlagsKeep(t, u);
    hide Heads, WorkBelow;
    forall i | 0 <= i < |u| ensures u[i].work <= WorkBelow(u, i) + p.work(u[i].h.bits) {
      assert u[i].h == t[i].h;
      WorkBelowSame(t, u, i);
    }
  }

  // ── Inserting ────────────────────────────────────────────────────────────

  lemma {:induction false} FindAppend(hs: seq<Header>, n: Header, hash: Hash)
    ensures Find(hs + [n], hash) == if n.hash == hash then Some(|hs|) else Find(hs, hash)
  {
    assert (hs + [n])[..|hs|] == hs;
  }

  lemma {:induction false} WorkBelowAppend(p: Params, t: seq<Row>, h: Header, active: bool, i: nat)
    requires Fits(Heads(t), h) && i < |t|
    ensures WorkBelow(t, i) <= WorkBelow(t + [NewRow(p, t, h, active)], i)
  {
    var u := t + [NewRow(p, t, h, active)];
    assert Heads(u) == Heads(t) + [h];
    FindAppend(Heads(t), h, t[i].h.prev);
    match Parent(Heads(t), i) {
      case Some(q) => assert Heads(t)[q].hash != h.hash;
      case None =>
    }
  }

  lemma {:induction false} WorkBelowNew(p: Params, t: seq<Row>, h: Header, active: bool)
    requires Fits(Heads(t), h)
    ensures var row := NewRow(p, t, h, active);
            WorkBelow(t + [row], |t|) + p.work(h.bits) == row.work && row.h == h
  {
    var u := t + [NewRow(p, t, h, active)];
    assert Heads(u) == Heads(t) + [h];
    FindAppend(Heads(t), h, h.prev);
  }

  lemma {:induction false} WorkLowAppend(p: Params, t: seq<Row>, h: Header, active: bool)
    requires WorkLow(p, t) && Fits(Heads(t), h)
    ensures WorkLow(p, t + [NewRow(p, t, h, active)]) && WorkKept(t, t + [NewRow(p, t, h, active)])
  {
    hide Fits, Heads, NewRow, WorkBelow;
    var u := t + [NewRow(p, t, h, active)];
    forall i | 0 <= i < |u| ensures u[i].work <= WorkBelow(u, i) + p.work(u[i].h.bits) {
      if i < |t| { WorkBelowAppend(p, t, h, active, i); } else { WorkBelowNew(p, t, h, active); }
    }
  }

  /** A row inserted inactive climbs: the tip stays. */
  lemma {:induction false} InactiveClimbs(p: Params, t: seq<Row>, k: nat, h: Header)
    requires WorkLow(p, t) && Fits(Heads(t), h) && CleanAt(t, k) && CleanAt(t + [NewRow(p, t, h, false)], k)
    ensures Climbs(p, t, t + [NewRow(p, t, h, false)])
  {
    hide Fits, Heads, NewRow, CleanAt, WorkLow;
    CleanTip(t, k);
    CleanTip(t + [NewRow(p, t, h, false)], k);
    CleanIn(t, k);
    WorkLowAppend(p, t, h, false);
  }

  lemma {:induction false} CleanIn(t: seq<Row>, k: nat)
    requires CleanAt(t, k)
    ensures k < |t|
  {
  }

  lemma {:induction false} ExtendedFlags(t: seq<Row>, u: seq<Row>, row: Row)
    requires Extended(t, u, row)
    ensures SameButFlags(t + [row], u) && u[|t|].work == row.work
  {
  }

  /** A header that extends the tip and outworks it. */
  lemma {:induction false} ExtensionClimbs(p: Params, t: seq<Row>, u: seq<Row>, k: nat, h: Header)
    requires WorkLow(p, t) && Fits(Heads(t), h) && CleanAt(t, k) && CleanAt(u, |t|)
    requires Extended(t, u, NewRow(p, t, h, true)) && t[k].work < NewRow(p, t, h, true).work
    ensures Climbs(p, t, u)
  {
    hide Fits, Heads, NewRow, CleanAt, WorkLow, Extended;
    CleanTip(t, k);
    CleanTip(u, |t|);
    WorkLowAppend(p, t, h, true);
    ExtendedFlags(t, u, NewRow(p, t, h, true));
    WorkLowFlags(p, t + [NewRow(p, t, h, true)], u);
    WorkKeptOn(t, t + [NewRow(p, t, h, true)], u);
  }

  lemma {:induction false} WorkKeptOn(t: seq<Row>, u: seq<Row>, v: seq<Row>)
    requires WorkKept(t, u) && WorkKept(u, v)
    ensures WorkKept(t, v)
  {
  }

  // ── The reorg ────────────────────────────────────────────────────────────

  lemma {:induction false} ReorgFlags(a: Db, b: Db, n: nat, c: nat)
    requires Sound(Heads(a.rows)) && n < |a.rows| && c < |a.rows| && Reorged(a, b, n, c)
    ensures SameButFlags(a.rows, b.rows)
  {
    hide Path, Sound;
    forall i | 0 <= i < |a.rows|
      ensures b.rows[i].h == a.rows[i].h && b.rows[i].link == a.rows[i].link && b.rows[i].work == a.rows[i].work
    {
      assert b.rows[i] == ReorgRow(a.rows, n, c, i);
    }
  }

  lemma {:induction false} FlagsClimb(p: Params, t: seq<Row>, u: seq<Row>, k: nat, n: nat)
    requires WorkLow(p, t) && SameButFlags(t, u) && CleanAt(t, k) && CleanAt(u, n)
    requires n < |t| && k < |t| && (k == n || t[k].work < t[n].work)
    ensures Climbs(p, t, u)
  {
    hide CleanAt, WorkLow;
    CleanTip(t, k);
    CleanTip(u, n);
    WorkLowFlags(p, t, u);
  }

  /** Moving the tip to a row with more work through the reorg walk. */
  lemma {:induction false} ReorgToClimbs(p: Params, db: Db, k: nat, n: nat)
    requires GoodAt(p, db.rows, k) && LinksTrue(db.rows) && n < |db.rows| && WorkLow(p, db.rows)
    requires db.rows[k].work < db.rows[n].work
    ensures AllClimb(p, db, ReorgTo(db, n, k).txs)
  {
    hide Sound, Run, ReorgBatch, Path, WorkLow, Reorged, SameButFlags, Climbs;
    var hs := Heads(db.rows);
    if CommonAncestor(hs, n, k).Some? {
      var c := CommonAncestor(hs, n, k).value;
      var tx := ReorgBatch(hs, n, c);
      var db1 := Run(db, tx);
      ReorgTxClean(p, db, k, n, c);
      ReorgTxClimbs(p, db, k, n, c);
      AllClimbOne(p, db, tx);
      TipMoveIdle(db1, n);
      assert db1.rows[n].h == hs[n];
      StayClimbs(p, db.rows, db1.rows);
      AllClimbOne(p, db1, TipMove(hs[n].hash));
      AllClimbCons(p, db, tx, [TipMove(hs[n].hash)]);
      assert [tx] + [] == [tx];
    }
  }

  lemma {:induction false} StayClimbs(p: Params, t: seq<Row>, u: seq<Row>)
    requires Climbs(p, t, u)
    ensures Climbs(p, u, u)
  {
  }

  lemma {:induction false} ReorgTxClimbs(p: Params, db: Db, k: nat, n: nat, c: nat)
    requires GoodAt(p, db.rows, k) && LinksTrue(db.rows) && n < |db.rows| && c < |db.rows| && WorkLow(p, db.rows)
    requires Common(Heads(db.rows), k, n, c) && db.rows[k].work < db.rows[n].work
    ensures Climbs(p, db.rows, Run(db, ReorgBatch(Heads(db.rows), n, c)).rows)
  {
    hide Sound, Run, ReorgBatch, Path, WorkLow, Reorged, SameButFlags, Climbs, CleanAt;
    CleanSound(db.rows, k);
    var db1 := Run(db, ReorgBatch(Heads(db.rows), n, c));
    ReorgTxClean(p, db, k, n, c);
    ReorgEffect(db, n, c);
    ReorgFlags(db, db1, n, c);
    FlagsClimb(p, db.rows, db1.rows, k, n);
  }

  // ── Each live write climbs ───────────────────────────────────────────────

  lemma {:induction false} FirstClimbs(p: Params, db: Db, h: Header)
    requires db.rows == [] && Admissible([], h)
    ensures AllClimb(p, db, InsertHeader(p, db, h).txs)
  {
    hide Run, Climbs, AllClimb;
    assert Heads(db.rows) == [];
    assert ChainTip(db.rows).None?;
    if InsertHeader(p, db, h).txs == [] {
      AllClimbNone(p, db);
    } else {
      var row := NewRow(p, db.rows, h, true);
      ExtensionEffect(db, row);
      WorkLowFirst(p, h, Run(db, Extension(row)).rows, db.rows);
      AllClimbOne(p, db, Extension(row));
    }
  }

  lemma {:induction false} AllClimbNone(p: Params, db: Db)
    ensures AllClimb(p, db, [])
  {
  }

  lemma {:induction false} WorkLowFirst(p: Params, h: Header, u: seq<Row>, t: seq<Row>)
    requires t == [] && Fits([], h) && Extended(t, u, NewRow(p, t, h, true))
    ensures Climbs(p, t, u)
  {
    hide NewRow, Fits, WorkBelow;
    assert Heads(t) == [];
    assert WorkLow(p, t);
    WorkLowAppend(p, t, h, true);
    ExtendedFlags(t, u, NewRow(p, t, h, true));
    WorkLowFlags(p, t + [NewRow(p, t, h, true)], u);
  }

  lemma {:induction false} InsertClimbs(p: Params, db: Db, h: Header)
    requires Good(p, db.rows) && WorkLow(p, db.rows) && p.Ascending() && Admissible(Heads(db.rows), h)
    ensures AllClimb(p, db, InsertHeader(p, db, h).txs)
  {
    if db.rows == [] {
      assert Heads(db.rows) == [];
      FirstClimbs(p, db, h);
    } else if InsertHeader(p, db, h).txs == [] {
      AllClimbNone(p, db);
    } else {
      var k: nat :| GoodAt(p, db.rows, k);
      InsertClimbsAt(p, db, k, h);
    }
  }

  /** The three shapes of an insert on a store whose tip is `k`. */
  lemma {:induction false} InsertClimbsAt(p: Params, db: Db, k: nat, h: Header)
    requires GoodAt(p, db.rows, k) && LinksTrue(db.rows) && WorkLow(p, db.rows) && p.Ascending()
    requires Admissible(Heads(db.rows), h) && InsertHeader(p, db, h).txs != []
    ensures AllClimb(p, db, InsertHeader(p, db, h).txs)
  {
    var t := db.rows;
    CleanIn(t, k);
    hide *;
    InsertShape(p, db, k, h);
    if Judge(p, t, h).1 && t[k].work < NewRow(p, t, h, false).work {
      if h.prev == t[k].h.hash {
        InsertTipClimbs(p, db, k, h);
        AllClimbOne(p, db, Extension(NewRow(p, t, h, true)));
      } else {
        InsertReorgClimbs(p, db, k, h);
      }
    } else {
      InsertRowClimbs(p, db, k, h);
      AllClimbOne(p, db, [Insert(NewRow(p, t, h, false))]);
    }
  }

  lemma {:induction false} InsertRowClimbs(p: Params, db: Db, k: nat, h: Header)
    requires GoodAt(p, db.rows, k) && LinksTrue(db.rows) && WorkLow(p, db.rows) && p.Ascending()
    requires Find(Heads(db.rows), h.hash).None? && Admissible(Heads(db.rows), h) && Judge(p, db.rows, h).0.None?
    ensures var r := Run(db, [Insert(NewRow(p, db.rows, h, false))]);
            && Climbs(p, db.rows, r.rows) && GoodAt(p, r.rows, k) && LinksTrue(r.rows) && WorkLow(p, r.rows)
            && r.rows == db.rows + [NewRow(p, db.rows, h, false)]
  {
    hide Sound, Fits, Run, Judge, NewRow, Heads, WorkLow, CleanAt;
    InsertGuards(p, db.rows, k, h, false);
    InsertInactiveClean(p, db, k, h);
    InactiveClimbs(p, db.rows, k, h);
  }

  lemma {:induction false} InsertTipClimbs(p: Params, db: Db, k: nat, h: Header)
    requires GoodAt(p, db.rows, k) && LinksTrue(db.rows) && WorkLow(p, db.rows) && p.Ascending() && k < |db.rows|
    requires Find(Heads(db.rows), h.hash).None? && Admissible(Heads(db.rows), h) && Judge(p, db.rows, h).0.None?
    requires h.prev == db.rows[k].h.hash && db.rows[k].work < NewRow(p, db.rows, h, false).work
    ensures Climbs(p, db.rows, Run(db, Extension(NewRow(p, db.rows, h, true))).rows)
  {
    hide Sound, Fits, Run, Judge, Heads, WorkLow, CleanAt, Extended, Climbs;
    InsertGuards(p, db.rows, k, h, true);
    InsertExtensionClean(p, db, k, h);
    ExtensionClimbs(p, db.rows, Run(db, Extension(NewRow(p, db.rows, h, true))).rows, k, h);
  }

  lemma {:induction false} InsertReorgClimbs(p: Params, db: Db, k: nat, h: Header)
    requires GoodAt(p, db.rows, k) && LinksTrue(db.rows) && WorkLow(p, db.rows) && p.Ascending() && k < |db.rows|
    requires Find(Heads(db.rows), h.hash).None? && Admissible(Heads(db.rows), h) && Judge(p, db.rows, h).0.None?
    requires db.rows[k].work < NewRow(p, db.rows, h, false).work
    ensures var row := NewRow(p, db.rows, h, false);
            var db1 := Run(db, [Insert(row)]);
            && Sound(Heads(db1.rows)) && k < |db1.rows| == |db.rows| + 1
            && AllClimb(p, db, [[Insert(row)]] + ReorgTo(db1, |db.rows|, k).txs)
  {
    hide Fits, Run, Judge, Heads, WorkLow, CleanAt, Climbs, AllClimb, NewRow, ReorgTo;
    var row := NewRow(p, db.rows, h, false);
    var db1 := Run(db, [Insert(row)]);
    InsertRowClimbs(p, db, k, h);
    CleanSound(db1.rows, k);
    ReorgToClimbs(p, db1, k, |db.rows|);
    AllClimbCons(p, db, [Insert(row)], ReorgTo(db1, |db.rows|, k).txs);
  }

  lemma {:induction false} CleanSound(t: seq<Row>, k: nat)
    requires CleanAt(t, k)
    ensures Sound(Heads(t)) && k < |t|
  {
  }

  // ── The relink ───────────────────────────────────────────────────────────

  lemma {:induction false} RelinkTxClimbs(p: Params, db: Db, k: nat, i: nat, q: nat)
    requires GoodAt(p, db.rows, k) && LinksTrue(db.rows) && WorkLow(p, db.rows)
    requires i < |db.rows| && Parent(Heads(db.rows), i) == Some(q)
    ensures var r := Run(db, RelinkTx(p, db.rows, i, q)).rows;
            Climbs(p, db.rows, r) && WorkLow(p, r) && GoodAt(p, r, k) && LinksTrue(r)
  {
    hide Sound, Run, CleanAt, WorkLow;
    var r := Run(db, RelinkTx(p, db.rows, i, q)).rows;
    RelinkTxClean(p, db, k, i, q);
    RelinkEffect(p, db, i, q);
    RelinkWorkLow(p, db.rows, r, i, q);
    CleanTip(db.rows, k);
    CleanTip(r, k);
    CleanSound(db.rows, k);
  }

  lemma {:induction false} RelinkWorkLow(p: Params, t: seq<Row>, u: seq<Row>, i: nat, q: nat)
    requires WorkLow(p, t) && i < |t| && Parent(Heads(t), i) == Some(q) && |u| == |t| && Heads(u) == Heads(t)
    requires u[i] == t[i].(link := Some(q), work := t[q].work + p.work(t[i].h.bits))
    requires forall j {:trigger u[j]} :: 0 <= j < |t| && j != i ==> u[j] == t[j]
    ensures WorkLow(p, u) && WorkKept(t, u)
  {
    assert WorkBelow(t, i) == t[q].work;
    assert t[i].work <= u[i].work;
    assert WorkKept(t, u);
    hide Heads, WorkBelow;
    forall j | 0 <= j < |u| ensures u[j].work <= WorkBelow(u, j) + p.work(u[j].h.bits) {
      WorkBelowSame(t, u, j);
      assert j != i ==> u[j] == t[j];
    }
  }

  lemma {:induction false} RelinkClimbs(p: Params, db: Db, hash: Hash)
    requires Good(p, db.rows) && WorkLow(p, db.rows)
    ensures AllClimb(p, db, RelinkOrphan(p, db, hash).txs)
  {
    if RelinkOrphan(p, db, hash).txs == [] {
      AllClimbNone(p, db);
    } else {
      assert db.rows != [] by { assert |Heads(db.rows)| == |db.rows|; }
      var k: nat :| GoodAt(p, db.rows, k);
      RelinkClimbsAt(p, db, k, hash);
    }
  }

  lemma {:induction false} RelinkClimbsAt(p: Params, db: Db, k: nat, hash: Hash)
    requires GoodAt(p, db.rows, k) && LinksTrue(db.rows) && WorkLow(p, db.rows)
    requires RelinkOrphan(p, db, hash).txs != []
    ensures AllClimb(p, db, RelinkOrphan(p, db, hash).txs)
  {
    var t := db.rows;
    var hs := Heads(t);
    CleanIn(t, k);
    hide *;
    RelinkShape(p, db, k, hash);
    var i := Find(hs, hash).value;
    var q := Parent(hs, i).value;
    var tx := RelinkTx(p, t, i, q);
    var db1 := Run(db, tx);
    RelinkTxClimbs(p, db, k, i, q);
    SameRow(p, db, i, q, hash);
    if db1.rows[k].work < db1.rows[i].work {
      if t[i].h.prev == t[k].h.hash {
        AfterTipClimbs(p, db, tx, k, i);
      } else {
        AfterReorgClimbs(p, db, tx, k, i);
      }
    } else {
      AllClimbOne(p, db, tx);
    }
  }

  lemma {:induction false} AfterTipClimbs(p: Params, db: Db, tx: seq<Stmt>, k: nat, i: nat)
    requires Climbs(p, db.rows, Run(db, tx).rows) && WorkLow(p, Run(db, tx).rows)
    requires GoodAt(p, Run(db, tx).rows, k) && LinksTrue(Run(db, tx).rows)
    requires i < |Run(db, tx).rows| && k < |Run(db, tx).rows|
    requires Run(db, tx).rows[i].h.prev == Run(db, tx).rows[k].h.hash
    requires Run(db, tx).rows[k].work < Run(db, tx).rows[i].work
    ensures AllClimb(p, db, [tx, TipMove(Run(db, tx).rows[i].h.hash)])
  {
    hide *;
    var db1 := Run(db, tx);
    var move := TipMove(db1.rows[i].h.hash);
    TipClimbs(p, db1, k, i);
    AllClimbOne(p, db1, move);
    AllClimbCons(p, db, tx, [move]);
    assert [tx] + [move] == [tx, move];
  }

  lemma {:induction false} AfterReorgClimbs(p: Params, db: Db, tx: seq<Stmt>, k: nat, i: nat)
    requires Climbs(p, db.rows, Run(db, tx).rows) && WorkLow(p, Run(db, tx).rows)
    requires GoodAt(p, Run(db, tx).rows, k) && LinksTrue(Run(db, tx).rows) && Sound(Heads(Run(db, tx).rows))
    requires i < |Run(db, tx).rows| && k < |Run(db, tx).rows|
    requires Run(db, tx).rows[k].work < Run(db, tx).rows[i].work
    ensures AllClimb(p, db, [tx] + ReorgTo(Run(db, tx), i, k).txs)
  {
    hide *;
    ReorgToClimbs(p, Run(db, tx), k, i);
    AllClimbCons(p, db, tx, ReorgTo(Run(db, tx), i, k).txs);
  }

  lemma {:induction false} SameRow(p: Params, db: Db, i: nat, q: nat, hash: Hash)
    requires Find(Heads(db.rows), hash) == Some(i) && i < |db.rows| && q < |db.rows|
    ensures var db1 := Run(db, RelinkTx(p, db.rows, i, q));
            && |db1.rows| == |db.rows| && db1.rows[i].h.hash == hash
            && forall j {:trigger db1.rows[j]} :: 0 <= j < |db.rows| ==> db1.rows[j].h == db.rows[j].h
  {
    hide Run;
    RelinkEffect(p, db, i, q);
  }

  lemma {:induction false} TipClimbs(p: Params, db: Db, k: nat, i: nat)
    requires GoodAt(p, db.rows, k) && LinksTrue(db.rows) && WorkLow(p, db.rows) && i < |db.rows| && k < |db.rows|
    requires db.rows[i].h.prev == db.rows[k].h.hash && db.rows[k].work < db.rows[i].work
    ensures Climbs(p, db.rows, Run(db, TipMove(db.rows[i].h.hash)).rows)
  {
    hide Sound, Run, TipMove, WorkLow, Climbs;
    CleanSound(db.rows, k);
    ParentIs(Heads(db.rows), i, k);
    TipMoveKeepsClean(p, db, k, i);
    TipMoveEffect(db, i);
    FlagsClimb(p, db.rows, Run(db, TipMove(db.rows[i].h.hash)).rows, k, i);
  }
}
