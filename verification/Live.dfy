/** The live writes: one header inserted, one orphan relinked
    (src/storage.rs:554-968), each as the transactions it runs. */
module Live {
  import opened Wrappers
  import opened Headers
  import opened HeaderTable
  import opened Ancestor
  import opened CleanStore

  datatype Result =
    | Refused(fault: Fault)
    | NoAncestor
    | Dupe
    | NoRow
    | NoPrev
    | Added(becameTip: bool, depth: nat)

  /** The transactions of a call, in order, and its answer. */
  datatype Outcome = Outcome(txs: seq<seq<Stmt>>, result: Result)

  /** A header that is stored already, or fits the stored ones. */
  ghost predicate Admissible(hs: seq<Header>, h: Header) {
    h in hs || Fits(hs, h)
  }

  /** The rows `load_window` collects (src/storage.rs:1925-1971), the parent
      first: an inactive row's stored parent, an active row's active parent, at
      most `depth` rows and always one. */
  ghost function Reach(t: seq<Row>, i: nat, depth: nat): (r: seq<nat>)
    requires Sound(Heads(t)) && i < |t|
    ensures |r| > 0 && r[0] == i && |r| <= Max(1, depth)
    ensures forall k :: 0 <= k < |r| ==> r[k] < |t|
    decreases depth
  {
    match Parent(Heads(t), i)
    case Some(q) =>
      if 1 < depth && 0 < t[i].h.height && (t[i].active ==> t[q].active)
      then [i] + Reach(t, q, depth - 1) else [i]
    case None => [i]
  }

  /** The window a path of rows makes: its links, the oldest first. */
  function Links(hs: seq<Header>, rows: seq<nat>): (r: seq<Link>)
    requires forall k :: 0 <= k < |rows| ==> rows[k] < |hs|
    ensures |r| == |rows|
    ensures forall k :: 0 <= k < |rows| ==> r[|rows| - 1 - k] == LinkOf(hs[rows[k]])
  {
    seq(|rows|, k requires 0 <= k < |rows| => LinkOf(hs[rows[|rows| - 1 - k]]))
  }

  ghost function LoadWindow(t: seq<Row>, i: nat, depth: nat): seq<Link>
    requires Sound(Heads(t)) && i < |t|
  {
    Links(Heads(t), Reach(t, i, depth))
  }

  /** `stored_checkpoint_above` (src/storage.rs:1876-1897) over the first `n`
      checkpoints: the highest one above `height`, at or below the tip, whose
      row is held. */
  function CheckpointAbove(list: seq<(nat, Hash)>, hs: seq<Header>, height: nat, tipHeight: nat): Option<nat>
    decreases |list|
  {
    if list == [] || list[|list| - 1].0 <= height then None
    else
      var (cp, hash) := list[|list| - 1];
      if cp <= tipHeight && Find(hs, hash).Some? then Some(cp)
      else CheckpointAbove(list[..|list| - 1], hs, height, tipHeight)
  }

  function StoredCheckpointAbove(p: Params, t: seq<Row>, height: nat, tip: Option<nat>): Option<nat>
    requires tip.Some? ==> tip.value < |t|
  {
    if tip.None? then None else CheckpointAbove(p.checkpoints, Heads(t), height, t[tip.value].h.height)
  }

  ghost function ActiveAbove(t: seq<Row>, floor: nat): set<nat> {
    set i | 0 <= i < |t| && t[i].active && floor < t[i].h.height
  }

  /** `SQL_COUNT_ACTIVE_ABOVE`. */
  ghost function CountActiveAbove(t: seq<Row>, floor: nat): nat {
    |ActiveAbove(t, floor)|
  }

  /** The tip moves to row `n` through the reorg walk (src/storage.rs:692-703):
      the reorg transaction, and the tip move once more when nothing was
      deactivated. */
  ghost function ReorgTo(db: Db, n: nat, tip: nat): Outcome
    requires Sound(Heads(db.rows)) && n < |db.rows| && tip < |db.rows|
  {
    var hs := Heads(db.rows);
    match CommonAncestor(hs, n, tip)
    case None => Outcome([], NoAncestor)
    case Some(c) =>
      var depth := CountActiveAbove(db.rows, hs[c].height);
      Outcome([ReorgBatch(hs, n, c)] + (if depth == 0 then [TipMove(hs[n].hash)] else []), Added(true, depth))
  }

  /** The stored parent of a header that is not stored yet. */
  function ParentOf(hs: seq<Header>, h: Header): (r: Option<nat>)
    ensures r.Some? ==> r.value < |hs| && hs[r.value].hash == h.prev
  {
    if h.prev == ZERO_HASH then None else Find(hs, h.prev)
  }

  /** The rules a new header meets, in the node's order: the fault, or whether
      it is anchored (src/storage.rs:601-630). */
  ghost function Judge(p: Params, t: seq<Row>, h: Header): (Option<Fault>, bool)
    requires Sound(Heads(t))
  {
    var parent := ParentOf(Heads(t), h);
    var tip := ChainTip(t);
    if parent.Some? && h.height != t[parent.value].h.height + 1 then (Some(BadPrev), false)
    else if StoredCheckpointAbove(p, t, h.height, tip).Some? then
      (Some(ForkPriorToCheckpoint(StoredCheckpointAbove(p, t, h.height, tip).value)), false)
    else
      match parent
      case Some(q) => (CheckContext(p, LoadWindow(t, q, p.depth(t[q].h.height)), h), true)
      case None => p.CheckUnlinked(h, tip.None?)
  }

  /** A header that is not stored whatever the rules say of it: its hash is taken,
      or its claimed height is not one above its stored parent's. */
  predicate TurnedAway(hs: seq<Header>, h: Header) {
    || Find(hs, h.hash).Some?
    || (ParentOf(hs, h).Some? && h.height != hs[ParentOf(hs, h).value].height + 1)
  }

  function TurnedWith(p: Params, hs: seq<Header>, h: Header): Result {
    if !p.pow(h) then Refused(HighHash) else if Find(hs, h.hash).Some? then Dupe else Refused(BadPrev)
  }

  /** The row a header is stored as. */
  function NewRow(p: Params, t: seq<Row>, h: Header, active: bool): Row {
    var parent := ParentOf(Heads(t), h);
    Row(h, parent, active, false, (if parent.Some? then t[parent.value].work else 0) + p.work(h.bits))
  }

  /** `insert_header` (src/storage.rs:554-706). */
  ghost function InsertHeader(p: Params, db: Db, h: Header): Outcome
    requires Sound(Heads(db.rows)) && Admissible(Heads(db.rows), h)
  {
    var t := db.rows;
    var tip := ChainTip(t);
    if !p.pow(h) then Outcome([], Refused(HighHash))
    else if Find(Heads(t), h.hash).Some? then Outcome([], Dupe)
    else
      var (fault, anchored) := Judge(p, t, h);
      if fault.Some? then Outcome([], Refused(fault.value))
      else if tip.None? || (anchored && t[tip.value].work < NewRow(p, t, h, false).work) then
        if tip.None? || h.prev == t[tip.value].h.hash
        then Outcome([Extension(NewRow(p, t, h, true))], Added(true, 0))
        else
          InsertedFits(db, NewRow(p, t, h, false));
          var reorg := ReorgTo(Run(db, [Insert(NewRow(p, t, h, false))]), |t|, tip.value);
          Outcome([[Insert(NewRow(p, t, h, false))]] + reorg.txs, reorg.result)
      else Outcome([[Insert(NewRow(p, t, h, false))]], Added(false, 0))
  }

  lemma {:induction false} InsertedFits(db: Db, row: Row)
    requires Sound(Heads(db.rows)) && Admissible(Heads(db.rows), row.h)
    requires Find(Heads(db.rows), row.h.hash).None?
    ensures Run(db, [Insert(row)]) == db.(rows := db.rows + [row])
    ensures Sound(Heads(db.rows + [row])) && Fits(Heads(db.rows), row.h)
  {
    RunOne(db, Insert(row));
    assert Heads(db.rows + [row]) == Heads(db.rows) + [row.h];
    SoundAppend(Heads(db.rows), row.h);
  }

  /** The row of a relinked orphan (`SQL_RELINK_HEADER`). */
  function RelinkTx(p: Params, t: seq<Row>, i: nat, q: nat): seq<Stmt>
    requires i < |t| && q < |t|
  {
    [RelinkHeader(i, q, t[q].work + p.work(t[i].h.bits))]
  }

  /** `relink_orphan_and_reevaluate` (src/storage.rs:905-968). */
  ghost function RelinkOrphan(p: Params, db: Db, hash: Hash): Outcome
    requires Sound(Heads(db.rows))
  {
    var t := db.rows;
    var hs := Heads(t);
    var found := Find(hs, hash);
    if found.None? then Outcome([], NoRow)
    else
      var i := found.value;
      var parent := Parent(hs, i);
      if parent.None? then Outcome([], NoPrev)
      else
        var q := parent.value;
        var fault := if t[i].h.height != t[q].h.height + 1 then Some(BadPrev)
                     else CheckContext(p, LoadWindow(t, q, p.depth(t[q].h.height)), t[i].h);
        if fault.Some? then Outcome([], Refused(fault.value))
        else
          var db1 := Run(db, RelinkTx(p, t, i, q));
          RelinkEffect(p, db, i, q);
          var tip := ChainTip(db1.rows);
          if tip.None? then Outcome([RelinkTx(p, t, i, q), TipMove(hash)], Added(true, 0))
          else if db1.rows[tip.value].work < db1.rows[i].work then
            if t[i].h.prev == t[tip.value].h.hash
            then Outcome([RelinkTx(p, t, i, q), TipMove(hash)], Added(true, 0))
            else
              var reorg := ReorgTo(db1, i, tip.value);
              Outcome([RelinkTx(p, t, i, q)] + reorg.txs, reorg.result)
          else Outcome([RelinkTx(p, t, i, q)], Added(false, 0))
  }

  lemma {:induction false} RelinkEffect(p: Params, db: Db, i: nat, q: nat)
    requires i < |db.rows| && q < |db.rows|
    ensures var r := Run(db, RelinkTx(p, db.rows, i, q));
            && r.pending == db.pending && |r.rows| == |db.rows| && Heads(r.rows) == Heads(db.rows)
            && r.rows[i] == db.rows[i].(link := Some(q), work := db.rows[q].work + p.work(db.rows[i].h.bits))
            && forall j {:trigger r.rows[j]} :: 0 <= j < |db.rows| && j != i ==> r.rows[j] == db.rows[j]
  {
    RunOne(db, RelinkTx(p, db.rows, i, q)[0]);
  }

  // ── Every transaction of a live write keeps the store clean ──────────────

  /** No header right below the anchor is let in: the anchor is the genesis
      height, or a checkpoint the store holds. */
  lemma {:induction false} BelowAnchorRefused(list: seq<(nat, Hash)>, hs: seq<Header>, height: nat, tipHeight: nat, cp: (nat, Hash))
    requires cp in list && height < cp.0 <= tipHeight && Find(hs, cp.1).Some?
    requires forall i, j :: 0 <= i < j < |list| ==> list[i].0 < list[j].0
    ensures CheckpointAbove(list, hs, height, tipHeight).Some?
    decreases |list|
  {
    var n := |list| - 1;
    var i :| 0 <= i < |list| && list[i] == cp;
    if i < n {
      assert cp in list[..n] by { assert list[..n][i] == cp; }
      BelowAnchorRefused(list[..n], hs, height, tipHeight, cp);
    }
  }

  lemma {:induction false} AnchorGuards(p: Params, t: seq<Row>, k: nat, h: Header)
    requires GoodAt(p, t, k) && p.Ascending()
    requires StoredCheckpointAbove(p, t, h.height, ChainTip(t)).None?
    ensures Root(Heads(t), k) < |t|
    ensures t[Root(Heads(t), k)].h.height == 0 || t[Root(Heads(t), k)].h.height != h.height + 1
  {
    hide Sound, CheckpointAbove;
    var hs := Heads(t);
    var r := Root(hs, k);
    CleanTip(t, k);
    PathAt(hs, k, r);
    if t[r].h.height == h.height + 1 {
      var found := Find(hs, t[r].h.hash);
      assert hs[r].hash == t[r].h.hash;
      BelowAnchorRefused(p.checkpoints, hs, h.height, t[k].h.height, (t[r].h.height, t[r].h.hash));
    }
  }

  /** Every state a list of transactions goes through is good. */
  ghost predicate AllGood(p: Params, db: Db, txs: seq<seq<Stmt>>)
    decreases |txs|
  {
    Good(p, db.rows) && (txs == [] || AllGood(p, Run(db, txs[0]), txs[1..]))
  }

  lemma {:induction false} AllGoodCons(p: Params, db: Db, tx: seq<Stmt>, rest: seq<seq<Stmt>>)
    requires Good(p, db.rows) && AllGood(p, Run(db, tx), rest)
    ensures AllGood(p, db, [tx] + rest)
  {
    assert ([tx] + rest)[1..] == rest;
  }

  lemma {:induction false} AllGoodNil(p: Params, db: Db)
    requires Good(p, db.rows)
    ensures AllGood(p, db, [])
  {
  }

  /** The reorg transaction keeps the store clean, its new tip the new row. */
  lemma {:induction false} ReorgTxClean(p: Params, db: Db, k: nat, n: nat, c: nat)
    requires GoodAt(p, db.rows, k) && LinksTrue(db.rows) && n < |db.rows| && c < |db.rows|
    requires Common(Heads(db.rows), k, n, c)
    ensures var r := Run(db, ReorgBatch(Heads(db.rows), n, c));
            GoodAt(p, r.rows, n) && LinksTrue(r.rows) && Heads(r.rows) == Heads(db.rows)
  {
    hide Sound, Run, ReorgBatch, ReorgRow;
    var r := Run(db, ReorgBatch(Heads(db.rows), n, c));
    ReorgEffect(db, n, c);
    ReorgKeepsClean(p, db, r, k, n, c);
    ReorgKeepsHeads(db, r, n, c);
  }

  lemma {:induction false} ReorgKeepsHeads(a: Db, b: Db, n: nat, c: nat)
    requires Sound(Heads(a.rows)) && n < |a.rows| && c < |a.rows| && Reorged(a, b, n, c)
    ensures Heads(b.rows) == Heads(a.rows)
  {
    hide Path, Sound;
    forall i | 0 <= i < |a.rows| ensures b.rows[i].h == a.rows[i].h {
      assert b.rows[i] == ReorgRow(a.rows, n, c, i);
    }
  }

  lemma {:induction false} ReorgToKeepsClean(p: Params, db: Db, k: nat, n: nat)
    requires GoodAt(p, db.rows, k) && LinksTrue(db.rows) && n < |db.rows|
    ensures AllGood(p, db, ReorgTo(db, n, k).txs)
  {
    hide Sound, Run, ReorgBatch, Path;
    var hs := Heads(db.rows);
    assert Good(p, db.rows);
    if CommonAncestor(hs, n, k).Some? {
      var c := CommonAncestor(hs, n, k).value;
      var db1 := Run(db, ReorgBatch(hs, n, c));
      ReorgTxClean(p, db, k, n, c);
      TipMoveIdle(db1, n);
      assert db1.rows[n].h == hs[n];
      AllGoodCons(p, db1, TipMove(hs[n].hash), []);
      AllGoodCons(p, db, ReorgBatch(hs, n, c), []);
      AllGoodCons(p, db, ReorgBatch(hs, n, c), [TipMove(hs[n].hash)]);
    }
  }

  /** A header let in on an empty store is an anchor. */
  lemma {:induction false} UnlinkedOnEmpty(p: Params, h: Header)
    requires p.CheckUnlinked(h, true).0.None?
    ensures Vouched(p, h)
  {
  }

  /** The first header of a store. */
  lemma {:induction false} InsertFirst(p: Params, db: Db, h: Header)
    requires db.rows == [] && Admissible([], h)
    ensures AllGood(p, db, InsertHeader(p, db, h).txs)
  {
    hide Run;
    var txs := InsertHeader(p, db, h).txs;
    assert Heads(db.rows) == [];
    if txs != [] {
      var row := NewRow(p, db.rows, h, true);
      UnlinkedOnEmpty(p, h);
      ExtensionEffect(db, row);
      var u := Run(db, Extension(row)).rows;
      FirstRowIsClean(p, u, row);
      assert GoodAt(p, u, 0);
      AllGoodCons(p, db, Extension(row), []);
    }
  }

  /** The row a header is stored as, on a clean store: its guards. */
  lemma {:induction false} InsertGuards(p: Params, t: seq<Row>, k: nat, h: Header, active: bool)
    requires GoodAt(p, t, k) && p.Ascending() && Find(Heads(t), h.hash).None? && Admissible(Heads(t), h)
    requires Judge(p, t, h).0.None?
    ensures Fits(Heads(t), h) && Root(Heads(t), k) < |t|
    ensures t[Root(Heads(t), k)].h.height == 0 || t[Root(Heads(t), k)].h.height != h.height + 1
    ensures var row := NewRow(p, t, h, active);
            row.link.Some? ==> row.link.value < |t| && t[row.link.value].h.hash == h.prev
  {
    AnchorGuards(p, t, k, h);
  }

  lemma {:induction false} InsertInactiveClean(p: Params, db: Db, k: nat, h: Header)
    requires GoodAt(p, db.rows, k) && LinksTrue(db.rows) && p.Ascending()
    requires Find(Heads(db.rows), h.hash).None? && Admissible(Heads(db.rows), h)
    requires Judge(p, db.rows, h).0.None?
    ensures var r := Run(db, [Insert(NewRow(p, db.rows, h, false))]);
            GoodAt(p, r.rows, k) && LinksTrue(r.rows) && r.rows == db.rows + [NewRow(p, db.rows, h, false)]
  {
    hide Sound, Fits, Run, Judge;
    InsertGuards(p, db.rows, k, h, false);
    InsertedFits(db, NewRow(p, db.rows, h, false));
    AppendInactive(p, db.rows, k, NewRow(p, db.rows, h, false));
  }

  lemma {:induction false} InsertExtensionClean(p: Params, db: Db, k: nat, h: Header)
    requires GoodAt(p, db.rows, k) && LinksTrue(db.rows) && p.Ascending()
    requires Find(Heads(db.rows), h.hash).None? && Admissible(Heads(db.rows), h)
    requires Judge(p, db.rows, h).0.None? && h.prev == db.rows[k].h.hash
    ensures var row := NewRow(p, db.rows, h, true);
            var r := Run(db, Extension(row));
            GoodAt(p, r.rows, |db.rows|) && LinksTrue(r.rows) && Extended(db.rows, r.rows, row)
  {
    hide Sound, Fits, Run, Judge;
    var row := NewRow(p, db.rows, h, true);
    InsertGuards(p, db.rows, k, h, true);
    ExtensionEffect(db, row);
    ParentOfTip(db.rows, k, h);
    ExtensionKeepsClean(p, db.rows, Run(db, Extension(row)).rows, k, row);
  }

  lemma {:induction false} ParentOfTip(t: seq<Row>, k: nat, h: Header)
    requires Sound(Heads(t)) && k < |t| && h.prev == t[k].h.hash
    ensures ParentOf(Heads(t), h) == Some(k)
  {
    var hs := Heads(t);
    SoundPair(hs, k, k);
    var q := Find(hs, h.prev);
    assert hs[k].hash == h.prev;
    SoundPair(hs, q.value, k);
  }

  /** The transactions of `insert_header` on a store whose tip is `k`: none, the
      row inactive, the extension, or the row inactive and the reorg. */
  lemma {:induction false} InsertShape(p: Params, db: Db, k: nat, h: Header)
    requires GoodAt(p, db.rows, k) && Admissible(Heads(db.rows), h)
    requires InsertHeader(p, db, h).txs != []
    ensures Find(Heads(db.rows), h.hash).None? && Judge(p, db.rows, h).0.None? && p.pow(h)
    ensures var row := NewRow(p, db.rows, h, false);
            var db1 := Run(db, [Insert(row)]);
            var out := InsertHeader(p, db, h);
            && Sound(Heads(db1.rows)) && |db1.rows| == |db.rows| + 1
            && if Judge(p, db.rows, h).1 && db.rows[k].work < row.work then
                 if h.prev == db.rows[k].h.hash
                 then out == Outcome([Extension(NewRow(p, db.rows, h, true))], Added(true, 0))
                 else out == Outcome([[Insert(row)]] + ReorgTo(db1, |db.rows|, k).txs, ReorgTo(db1, |db.rows|, k).result)
               else out == Outcome([[Insert(row)]], Added(false, 0))
  {
    hide Sound, Fits, Run, Judge, ReorgTo, Path, Extension, Admissible;
    CleanTip(db.rows, k);
    InsertedFits(db, NewRow(p, db.rows, h, false));
  }

  /** Every transaction of `insert_header`, the one it may stop at included,
      leaves a good store good. */
  lemma {:induction false} InsertKeepsClean(p: Params, db: Db, h: Header)
    requires Good(p, db.rows) && p.Ascending() && Admissible(Heads(db.rows), h)
    ensures AllGood(p, db, InsertHeader(p, db, h).txs)
  {
    if db.rows == [] {
      assert Heads(db.rows) == [];
      InsertFirst(p, db, h);
    } else if InsertHeader(p, db, h).txs != [] {
      var t := db.rows;
      var k: nat :| GoodAt(p, t, k);
      hide Sound, Fits, Run, Judge, ReorgTo, Path, Extension, Admissible, InsertHeader, AllGood, GoodAt, LinksTrue;
      InsertShape(p, db, k, h);
      var row := NewRow(p, t, h, false);
      InsertInactiveClean(p, db, k, h);
      if Judge(p, t, h).1 && t[k].work < row.work {
        if h.prev == t[k].h.hash {
          InsertExtensionClean(p, db, k, h);
          AfterTx(p, db, Extension(NewRow(p, t, h, true)), |t|);
        } else {
          AfterTxReorg(p, db, [Insert(row)], k, |t|);
        }
      } else {
        AfterTx(p, db, [Insert(row)], k);
      }
    }
  }

  lemma {:induction false} RelinkTxClean(p: Params, db: Db, k: nat, i: nat, q: nat)
    requires GoodAt(p, db.rows, k) && LinksTrue(db.rows) && i < |db.rows| && q < |db.rows|
    requires db.rows[i].h.prev == db.rows[q].h.hash
    ensures var r := Run(db, RelinkTx(p, db.rows, i, q)).rows;
            GoodAt(p, r, k) && LinksTrue(r) && Heads(r) == Heads(db.rows)
  {
    hide Sound, Run, Path;
    var t := db.rows;
    var r := Run(db, RelinkTx(p, t, i, q)).rows;
    RelinkEffect(p, db, i, q);
    forall j | 0 <= j < |t| ensures r[j].active == t[j].active && r[j].tip == t[j].tip && r[j].h == t[j].h {
      assert j != i ==> r[j] == t[j];
    }
    forall j | 0 <= j < |r| && r[j].link.Some?
      ensures r[j].link.value < |r| && r[r[j].link.value].h.hash == r[j].h.prev {
      assert j != i ==> r[j] == t[j];
    }
  }

  /** The transactions of a relink on a store whose tip is `k`. */
  lemma {:induction false} RelinkShape(p: Params, db: Db, k: nat, hash: Hash)
    requires GoodAt(p, db.rows, k) && LinksTrue(db.rows)
    requires RelinkOrphan(p, db, hash).txs != []
    ensures var hs := Heads(db.rows);
            Find(hs, hash).Some? && Parent(hs, Find(hs, hash).value).Some?
    ensures var hs := Heads(db.rows);
            var i := Find(hs, hash).value;
            var q := Parent(hs, i).value;
            var tx := RelinkTx(p, db.rows, i, q);
            var db1 := Run(db, tx);
            var out := RelinkOrphan(p, db, hash);
            && Sound(Heads(db1.rows)) && |db1.rows| == |db.rows|
            && if db1.rows[k].work < db1.rows[i].work then
                 if db.rows[i].h.prev == db.rows[k].h.hash
                 then out == Outcome([tx, TipMove(hash)], Added(true, 0))
                 else out == Outcome([tx] + ReorgTo(db1, i, k).txs, ReorgTo(db1, i, k).result)
               else out == Outcome([tx], Added(false, 0))
  {
    hide Sound, Run, ReorgTo, Path, TipMove, RelinkTx, CheckContext;
    var hs := Heads(db.rows);
    var i := Find(hs, hash).value;
    var q := Parent(hs, i).value;
    RelinkTxClean(p, db, k, i, q);
    CleanTip(Run(db, RelinkTx(p, db.rows, i, q)).rows, k);
    SameTipHash(db.rows, Run(db, RelinkTx(p, db.rows, i, q)).rows, k);
  }

  lemma {:induction false} SameTipHash(t: seq<Row>, u: seq<Row>, k: nat)
    requires Heads(u) == Heads(t) && k < |t|
    ensures k < |u| && u[k].h == t[k].h
  {
    assert Heads(u)[k] == Heads(t)[k];
  }

  /** Every transaction of `relink_orphan_and_reevaluate` likewise. */
  lemma {:induction false} RelinkKeepsClean(p: Params, db: Db, hash: Hash)
    requires Good(p, db.rows)
    ensures AllGood(p, db, RelinkOrphan(p, db, hash).txs)
  {
    if db.rows == [] {
      assert Find(Heads(db.rows), hash).None?;
    } else if RelinkOrphan(p, db, hash).txs != [] {
      var k: nat :| GoodAt(p, db.rows, k);
      RelinkKeepsCleanAt(p, db, k, hash);
    }
  }

  lemma {:induction false} RelinkKeepsCleanAt(p: Params, db: Db, k: nat, hash: Hash)
    requires Good(p, db.rows) && GoodAt(p, db.rows, k) && RelinkOrphan(p, db, hash).txs != []
    ensures AllGood(p, db, RelinkOrphan(p, db, hash).txs)
  {
    var t := db.rows;
    var hs := Heads(t);
    assert LinksTrue(t);
    hide Sound, Run, ReorgTo, Path, TipMove, RelinkTx, CheckContext, RelinkOrphan, AllGood, GoodAt, LinksTrue;
    RelinkShape(p, db, k, hash);
    var i := Find(hs, hash).value;
    var q := Parent(hs, i).value;
    var tx := RelinkTx(p, t, i, q);
    var db1 := Run(db, tx);
    RelinkTxClean(p, db, k, i, q);
    SameTipHash(t, db1.rows, i);
    SameTipHash(t, db1.rows, k);
    if db1.rows[k].work < db1.rows[i].work {
      if t[i].h.prev == t[k].h.hash {
        AfterTxTip(p, db, tx, k, i);
      } else {
        AfterTxReorg(p, db, tx, k, i);
      }
    } else {
      AfterTx(p, db, tx, k);
    }
  }

  /** A transaction that leaves the store good, alone, before a tip move, and
      before a reorg. */
  lemma {:induction false} AfterTx(p: Params, db: Db, tx: seq<Stmt>, k: nat)
    requires Good(p, db.rows) && GoodAt(p, Run(db, tx).rows, k) && LinksTrue(Run(db, tx).rows)
    ensures AllGood(p, db, [tx]) && Good(p, Run(db, tx).rows)
  {
    AllGoodNil(p, Run(db, tx));
    AllGoodCons(p, db, tx, []);
    assert [tx] + [] == [tx];
  }

  lemma {:induction false} AfterTxTip(p: Params, db: Db, tx: seq<Stmt>, k: nat, i: nat)
    requires Good(p, db.rows) && GoodAt(p, Run(db, tx).rows, k) && LinksTrue(Run(db, tx).rows)
    requires i < |Run(db, tx).rows| && Run(db, tx).rows[i].h.prev == Run(db, tx).rows[k].h.hash
    ensures AllGood(p, db, [tx, TipMove(Run(db, tx).rows[i].h.hash)])
  {
    hide Run, TipMove, LinksTrue, AllGood;
    var db1 := Run(db, tx);
    var move := TipMove(db1.rows[i].h.hash);
    RelinkTip(p, db1, k, i);
    assert Good(p, db1.rows);
    AllGoodNil(p, Run(db1, move));
    AllGoodCons(p, db1, move, []);
    assert [move] + [] == [move];
    AllGoodCons(p, db, tx, [move]);
    assert [tx] + [move] == [tx, move];
  }

  lemma {:induction false} AfterTxReorg(p: Params, db: Db, tx: seq<Stmt>, k: nat, i: nat)
    requires Good(p, db.rows) && GoodAt(p, Run(db, tx).rows, k) && LinksTrue(Run(db, tx).rows)
    requires i < |Run(db, tx).rows|
    ensures AllGood(p, db, [tx] + ReorgTo(Run(db, tx), i, k).txs)
  {
    hide Run, ReorgTo, LinksTrue, AllGood;
    ReorgToKeepsClean(p, Run(db, tx), k, i);
    AllGoodCons(p, db, tx, ReorgTo(Run(db, tx), i, k).txs);
  }

  lemma {:induction false} RelinkTip(p: Params, db: Db, k: nat, i: nat)
    requires GoodAt(p, db.rows, k) && LinksTrue(db.rows) && i < |db.rows|
    requires db.rows[i].h.prev == db.rows[k].h.hash
    ensures Good(p, Run(db, TipMove(db.rows[i].h.hash)).rows)
  {
    hide Sound, Run, Path, TipMove;
    ParentIs(Heads(db.rows), i, k);
    TipMoveKeepsClean(p, db, k, i);
    TipMoveEffect(db, i);
    assert GoodAt(p, Run(db, TipMove(db.rows[i].h.hash)).rows, i);
  }
}
