/** The bulk writer and the push (src/storage.rs:1034-1289 and 1480-1597):
    a linked run of headers, judged whole and written whole. */
module Bulk {
  import opened Wrappers
  import opened Headers
  import opened HeaderTable
  import opened Ancestor
  import opened CleanStore
  import opened Live

  // ── The headers that exist ───────────────────────────────────────────────

  /** A universe of headers: a hash names one header, and claimed heights are
      true ones. */
  ghost predicate Agree(all: iset<Header>) {
    && (forall a :: a in all ==> a.hash != ZERO_HASH && a.prev != a.hash)
    && (forall a, b :: a in all && b in all && a.hash == b.hash ==> a == b)
    && (forall a, b :: a in all && b in all && a.prev == b.hash ==> a.height == b.height + 1)
  }

  ghost predicate AllIn(all: iset<Header>, hs: seq<Header>) {
    forall i :: 0 <= i < |hs| ==> hs[i] in all
  }

  lemma {:induction false} RestIn(all: iset<Header>, run: seq<Header>)
    requires AllIn(all, run) && run != []
    ensures run[0] in all && AllIn(all, run[1..])
  {
  }

  lemma {:induction false} AgreeAdmits(all: iset<Header>, hs: seq<Header>, h: Header)
    requires Agree(all) && AllIn(all, hs) && h in all
    ensures Admissible(hs, h)
    ensures Find(hs, h.hash).Some? ==> hs[Find(hs, h.hash).value] == h
  {
    if h !in hs {
      forall i | 0 <= i < |hs| ensures hs[i].hash != h.hash { assert hs[i] in all; assert hs[i] in hs; }
    }
  }

  // ── The run judged ───────────────────────────────────────────────────────

  /** Each header the parent of the next (src/storage.rs:1058-1069). */
  predicate Linked(run: seq<Header>) {
    forall i :: 0 <= i && i + 1 < |run| ==>
      run[i + 1].height == run[i].height + 1 && run[i + 1].prev == run[i].hash
  }

  lemma {:induction false} LinkedHeights(run: seq<Header>, i: nat)
    requires Linked(run) && i < |run|
    ensures run[i].height == run[0].height + i
  {
    if i > 0 { LinkedHeights(run, i - 1); }
  }

  /** The depth of the window loaded once for the run
      (src/storage.rs:1086-1095): the deepest any of its headers asks, less the
      ancestors the run itself supplies. */
  function WindowDepth(p: Params, run: seq<Header>): (d: nat)
    ensures forall j :: 0 <= j < |run| && 0 < run[j].height ==>
      p.depth(run[j].height - 1) <= d + Max(0, run[j].height - run[0].height)
  {
    DepthOver(p, run, |run|)
  }

  function DepthOver(p: Params, run: seq<Header>, n: nat): (d: nat)
    requires n <= |run|
    ensures forall j :: 0 <= j < n && 0 < run[j].height ==>
      p.depth(run[j].height - 1) <= d + Max(0, run[j].height - run[0].height)
  {
    if n == 0 then 0
    else if run[n - 1].height == 0 then DepthOver(p, run, n - 1)
    else Max(DepthOver(p, run, n - 1),
             p.depth(run[n - 1].height - 1) - Max(0, run[n - 1].height - run[0].height))
  }

  /** The first fault of the context checks over the growing window, the headers
      up to `vouched` meeting the checkpoints alone (src/storage.rs:1144-1166).
      `known` are the heights below a held checkpoint whose active row is the
      header itself. */
  function ContextFault(p: Params, window: seq<Link>, run: seq<Header>,
                              below: Option<nat>, vouched: Option<nat>, t: seq<Row>): Option<Fault>
    decreases |run|
  {
    if run == [] then None
    else
      var h := run[0];
      if below.Some? && h.height < below.value && !ServedAt(t, h) then Some(ForkPriorToCheckpoint(below.value))
      else
        var fault := if (vouched.Some? && h.height <= vouched.value) || h.height == 0 then p.CheckCheckpoint(h)
                     else CheckContext(p, window, h);
        if fault.Some? then fault
        else ContextFault(p, window + [LinkOf(h)], run[1..], below, vouched, t)
  }

  /** The newest active row at the header's height is the header. */
  predicate ServedAt(t: seq<Row>, h: Header) {
    exists i :: 0 <= i < |t| && t[i].active && t[i].h == h
      && forall j :: i < j < |t| && t[j].active ==> t[j].h.height != h.height
  }

  /** The highest listed checkpoint inside the run's heights. */
  function CheckpointInside(list: seq<(nat, Hash)>, lo: nat, hi: nat): Option<nat>
    decreases |list|
  {
    if list == [] then None
    else if lo <= list[|list| - 1].0 <= hi then Some(list[|list| - 1].0)
    else CheckpointInside(list[..|list| - 1], lo, hi)
  }

  /** Why a run is refused, if it is (src/storage.rs:1046-1166). */
  ghost function JudgeRun(p: Params, t: seq<Row>, run: seq<Header>): Option<Fault>
    requires Sound(Heads(t)) && run != []
  {
    var hs := Heads(t);
    var first := run[0];
    var tip := ChainTip(t);
    var parent := Find(hs, first.prev);
    var below := StoredCheckpointAbove(p, t, first.height, tip);
    if exists i :: 0 <= i < |run| && !p.pow(run[i]) then Some(HighHash)
    else if !Linked(run) then Some(PrevNotFound)
    else
      match parent
      case Some(q) =>
        if first.height != t[q].h.height + 1 then Some(BadPrev)
        else ContextFault(p, LoadWindow(t, q, WindowDepth(p, run)), run, below, None, t)
      case None =>
        if first.height == 0 || first.prev == ZERO_HASH then
          if p.CheckUnlinked(first, tip.None?).0.Some? then p.CheckUnlinked(first, tip.None?).0
          else ContextFault(p, [], run, below, Some(0), t)
        else
          var vouched := CheckpointInside(p.checkpoints, first.height, run[|run| - 1].height);
          if vouched.None? then Some(PrevNotFound) else ContextFault(p, [], run, below, vouched, t)
  }

  // ── The run written ──────────────────────────────────────────────────────

  /** The run replaces an active row, or follows a row off the active chain: it
      goes through the live writer (src/storage.rs:1168-1191). */
  predicate Competes(t: seq<Row>, run: seq<Header>)
    requires run != []
  {
    var parent := Find(Heads(t), run[0].prev);
    var tip := ChainTip(t);
    || (parent.Some? && !t[parent.value].active)
    || (tip.Some? && run[0].height <= t[tip.value].h.height
        && exists i, j :: 0 <= i < |t| && 0 <= j < |run| && t[i].active
             && t[i].h.height == run[j].height && t[i].h.hash != run[j].hash)
  }

  /** The row with this hash is stored inactive. */
  predicate HeldInactive(t: seq<Row>, hash: Hash) {
    exists i :: 0 <= i < |t| && t[i].h.hash == hash && !t[i].active
  }

  /** The statements of one header of a run, `work` its work. */
  function FirstOfBulk(t: seq<Row>, h: Header, work: nat): seq<Stmt> {
    (if HeldInactive(t, h.hash) then [ActivateStored(h.hash, work, h.height)] else [])
    + [Insert(Row(h, None, true, false, work))]
  }

  /** The statements of the bulk path, `work` the work below the run. */
  function BulkStmts(p: Params, t: seq<Row>, run: seq<Header>, work: nat): seq<Stmt>
    decreases |run|
  {
    if run == [] then []
    else
      var h := run[0];
      var w := work + p.work(h.bits);
      FirstOfBulk(t, h, w) + BulkStmts(p, t, run[1..], w)
  }

  lemma {:induction false} BulkNext(p: Params, t: seq<Row>, run: seq<Header>, i: nat, running: nat)
    requires i < |run|
    ensures var w := running + p.work(run[i].bits);
            BulkStmts(p, t, run[i..], running) == FirstOfBulk(t, run[i], w) + BulkStmts(p, t, run[i + 1..], w)
  {
    hide HeldInactive;
    assert run[i..][0] == run[i] && run[i..][1..] == run[i + 1..];
  }

  function RunWork(t: seq<Row>, run: seq<Header>): nat
    requires run != []
  {
    var parent := Find(Heads(t), run[0].prev);
    if parent.Some? then t[parent.value].work else 0
  }

  /** A call that ended in an error. */
  predicate Failed(r: Result) {
    r.Refused? || r.NoAncestor?
  }

  /** The headers of a run inserted one at a time, up to the first error. */
  ghost function InsertEach(all: iset<Header>, p: Params, db: Db, run: seq<Header>): (Db, Result)
    requires Agree(all) && AllIn(all, run) && Sound(Heads(db.rows)) && AllIn(all, Heads(db.rows))
    decreases |run|
  {
    if run == [] then (db, Added(false, 0))
    else
      AgreeAdmits(all, Heads(db.rows), run[0]);
      var out := InsertHeader(p, db, run[0]);
      InsertHeads(p, db, run[0]);
      var db1 := RunAll(db, out.txs);
      if Failed(out.result) then (db1, out.result) else InsertEach(all, p, db1, run[1..])
  }

  /** `insert_headers_batch` (src/storage.rs:1034-1289). */
  ghost function InsertHeadersBatch(all: iset<Header>, p: Params, db: Db, run: seq<Header>): (Db, Result)
    requires Agree(all) && AllIn(all, run) && Sound(Heads(db.rows)) && AllIn(all, Heads(db.rows))
  {
    if run == [] then (db, Added(false, 0))
    else
      var fault := JudgeRun(p, db.rows, run);
      if fault.Some? then (db, Refused(fault.value))
      else if Competes(db.rows, run) then InsertEach(all, p, db, run)
      else (Run(db, BulkStmts(p, db.rows, run, RunWork(db.rows, run))), Added(false, 0))
  }

  // ── The headers a live write leaves ──────────────────────────────────────

  lemma {:induction false} ReorgToHeads(db: Db, n: nat, k: nat)
    requires Sound(Heads(db.rows)) && n < |db.rows| && k < |db.rows|
    ensures Heads(RunAll(db, ReorgTo(db, n, k).txs).rows) == Heads(db.rows)
  {
    hide Sound, Run, ReorgBatch, RunAll, TipMove, Path;
    var hs := Heads(db.rows);
    if CommonAncestor(hs, n, k).Some? {
      var c := CommonAncestor(hs, n, k).value;
      var db1 := Run(db, ReorgBatch(hs, n, c));
      ReorgEffect(db, n, c);
      ReorgKeepsHeads(db, db1, n, c);
      assert db1.rows[n].h == hs[n];
      TipMoveEffect(db1, n);
      RunAllOne(db, ReorgBatch(hs, n, c));
      assert [ReorgBatch(hs, n, c)] + [] == [ReorgBatch(hs, n, c)];
      RunAllOne(db1, TipMove(hs[n].hash));
      RunAllCons(db, ReorgBatch(hs, n, c), [TipMove(hs[n].hash)]);
    } else {
      RunAllNone(db);
    }
  }

  /** A live insert stores the header, or nothing. */
  lemma {:induction false} InsertHeads(p: Params, db: Db, h: Header)
    requires Sound(Heads(db.rows)) && Admissible(Heads(db.rows), h)
    ensures var r := Heads(RunAll(db, InsertHeader(p, db, h).txs).rows);
            Sound(r) && (r == Heads(db.rows) || r == Heads(db.rows) + [h])
  {
    hide Sound, Run, ReorgTo, RunAll, TipMove, Path, Judge, Fits, Admissible;
    var t := db.rows;
    if InsertHeader(p, db, h).txs == [] {
      RunAllNone(db);
    } else {
      var row := NewRow(p, t, h, false);
      InsertedFits(db, row);
      var db1 := Run(db, [Insert(row)]);
      assert Heads(db1.rows) == Heads(t) + [h];
      RunAllOne(db, [Insert(row)]);
      ExtensionHeads(db, NewRow(p, t, h, true));
      RunAllOne(db, Extension(NewRow(p, t, h, true)));
      if ChainTip(t).Some? {
        ReorgToHeads(db1, |t|, ChainTip(t).value);
        RunAllCons(db, [Insert(row)], ReorgTo(db1, |t|, ChainTip(t).value).txs);
      }
    }
  }

  lemma {:induction false} ExtensionHeads(db: Db, row: Row)
    requires Sound(Heads(db.rows)) && Fits(Heads(db.rows), row.h)
    ensures Heads(Run(db, Extension(row)).rows) == Heads(db.rows) + [row.h]
  {
    hide Sound, Run, Fits;
    ExtensionEffect(db, row);
    var u := Run(db, Extension(row)).rows;
    assert forall i :: 0 <= i < |u| ==> u[i].h == (Heads(db.rows) + [row.h])[i];
  }
}
