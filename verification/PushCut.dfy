/** The transactions of a push, and a push cut off between any two of them: the
    store it leaves, and what the same push made again does to it
    (src/storage.rs:1034-1289, 1480-1597). */
module PushCut {
  import opened Headers
  import opened HeaderTable
  import opened CleanStore
  import opened Live
  import opened Bulk
  import opened Growth
  import opened Push
  import opened PushAgain
  import opened PushClean
  import opened Runs

  // ── The transactions ─────────────────────────────────────────────────────

  /** The batches of the bulk path, `held` the statements collected so far: a
      header whose statements would pass a hundred opens a new one
      (src/storage.rs:1248-1286). */
  function Batched(p: Params, t: seq<Row>, run: seq<Header>, work: nat, held: seq<Stmt>): (r: seq<seq<Stmt>>)
    requires |held| <= CHUNK
    ensures forall i :: 0 <= i < |r| ==> 0 < |r[i]| <= 100
    ensures r == [] <==> run == [] && held == []
    decreases |run|
  {
    if run == [] then if held == [] then [] else [held]
    else
      var w := work + p.work(run[0].bits);
      var stmts := FirstOfBulk(t, run[0], w);
      if CHUNK < |held| + |stmts| then [held] + Batched(p, t, run[1..], w, stmts)
      else Batched(p, t, run[1..], w, held + stmts)
  }

  /** `update_chain_tip_to_highest`: one transaction, or none. */
  ghost function TipTxs(db: Db): seq<seq<Stmt>> {
    match HighestActive(db.rows)
    case None => []
    case Some(x) => [[ClearChainTip, SetChainTip(db.rows[x].h.hash)]]
  }

  /** `canonicalize_pushed`: the span linked and the tip moved, or the activation,
      one transaction. */
  ghost function CanonicalTxs(db: Db, run: seq<Header>): seq<seq<Stmt>> {
    if run == [] then []
    else
      var link := [LinkSpan(run[0].height, run[|run| - 1].height + 1)];
      match CanonicalizePushed(db, run).1
      case Served => [link] + TipTxs(Run(db, link))
      case StoredInactive => []
      case Activated => [ActivationBatch(db.rows, run, ChildOf(db.rows, run[|run| - 1]).value)]
  }

  ghost function EachTxs(all: iset<Header>, p: Params, db: Db, run: seq<Header>): seq<seq<Stmt>>
    requires Agree(all) && AllIn(all, run) && Sound(Heads(db.rows)) && AllIn(all, Heads(db.rows))
    decreases |run|
  {
    if run == [] then []
    else
      AgreeAdmits(all, Heads(db.rows), run[0]);
      InsertHeads(p, db, run[0]);
      var out := InsertHeader(p, db, run[0]);
      out.txs + if Failed(out.result) then [] else EachTxs(all, p, RunAll(db, out.txs), run[1..])
  }

  ghost function BatchTxs(all: iset<Header>, p: Params, db: Db, run: seq<Header>): seq<seq<Stmt>>
    requires Agree(all) && AllIn(all, run) && Sound(Heads(db.rows)) && AllIn(all, Heads(db.rows))
  {
    if run == [] || JudgeRun(p, db.rows, run).Some? then []
    else if Competes(db.rows, run) then EachTxs(all, p, db, run)
    else Batched(p, db.rows, run, RunWork(db.rows, run), [])
  }

  /** The transactions of a push, in order. */
  ghost function PushTxs(all: iset<Header>, p: Params, db: Db, run: seq<Header>): seq<seq<Stmt>>
    requires Agree(all) && AllIn(all, run) && Sound(Heads(db.rows)) && AllIn(all, Heads(db.rows))
  {
    var (mid, result) := InsertHeadersBatch(all, p, db, run);
    BatchTxs(all, p, db, run) + if Failed(result) then [] else CanonicalTxs(mid, run)
  }

  // ── They are the push ────────────────────────────────────────────────────

  lemma {:induction false} BatchedNext(p: Params, t: seq<Row>, run: seq<Header>, work: nat, held: seq<Stmt>)
    requires |held| <= CHUNK && run != []
    ensures var w := work + p.work(run[0].bits);
            var stmts := FirstOfBulk(t, run[0], w);
            && |stmts| <= CHUNK
            && Batched(p, t, run, work, held) ==
                 if CHUNK < |held| + |stmts| then [held] + Batched(p, t, run[1..], w, stmts)
                 else Batched(p, t, run[1..], w, held + stmts)
  {
    hide HeldInactive;
  }

  lemma {:induction false} BatchedNone(p: Params, t: seq<Row>, work: nat, held: seq<Stmt>)
    requires |held| <= CHUNK
    ensures Batched(p, t, [], work, held) == if held == [] then [] else [held]
  {
  }

  /** A run of batches leaves the rows of a first part of the run placed. */
  lemma {:induction false} BatchedCut(p: Params, t: seq<Row>, db: Db, run: seq<Header>, work: nat, held: seq<Stmt>, n: nat)
    returns (j: nat)
    requires |held| <= CHUNK && n <= |Batched(p, t, run, work, held)|
    ensures j <= |run| && (n == |Batched(p, t, run, work, held)| ==> j == |run|)
    ensures RunAll(db, Batched(p, t, run, work, held)[..n]) ==
              if n == 0 then db else Run(db, held + BulkStmts(p, t, run[..j], work))
    decreases |run|, 1
  {
    var batches := Batched(p, t, run, work, held);
    hide *;
    if run == [] {
      j := 0;
      BatchedNone(p, t, work, held);
      StmtsNone(p, t, work, held);
      BatchOnly(db, held, batches, n);
    } else if n == 0 {
      j := 0;
      assert batches[..0] == [];
      RunAllNone(db);
      assert batches != [] by { BatchedSome(p, t, run, work, held); }
    } else {
      var w := work + p.work(run[0].bits);
      var stmts := FirstOfBulk(t, run[0], w);
      BatchedNext(p, t, run, work, held);
      if CHUNK < |held| + |stmts| {
        j := CutAfter(p, t, db, run, work, held, n);
      } else {
        var m := BatchedCut(p, t, db, run[1..], w, held + stmts, n);
        j := m + 1;
        FirstOfPart(p, t, run, work, m);
        Regroup(held, stmts, BulkStmts(p, t, run[1..][..m], w));
      }
    }
  }

  lemma {:induction false} BatchedSome(p: Params, t: seq<Row>, run: seq<Header>, work: nat, held: seq<Stmt>)
    requires |held| <= CHUNK && run != []
    ensures Batched(p, t, run, work, held) != []
  {
    hide FirstOfBulk;
  }

  lemma {:induction false} Regroup(a: seq<Stmt>, b: seq<Stmt>, c: seq<Stmt>)
    ensures a + (b + c) == a + b + c
  {
  }

  lemma {:induction false} StmtsNone(p: Params, t: seq<Row>, work: nat, held: seq<Stmt>)
    ensures held + BulkStmts(p, t, [], work) == held
  {
  }

  /** A batch full before the first header of the run. */
  lemma {:induction false} CutAfter(p: Params, t: seq<Row>, db: Db, run: seq<Header>, work: nat, held: seq<Stmt>, n: nat)
    returns (j: nat)
    requires |held| <= CHUNK && 0 < n && run != []
    requires var w := work + p.work(run[0].bits);
             var stmts := FirstOfBulk(t, run[0], w);
             && |stmts| <= CHUNK && n - 1 <= |Batched(p, t, run[1..], w, stmts)|
             && Batched(p, t, run, work, held) == [held] + Batched(p, t, run[1..], w, stmts)
    ensures j <= |run| && (n == |Batched(p, t, run, work, held)| ==> j == |run|)
    ensures RunAll(db, Batched(p, t, run, work, held)[..n]) == Run(db, held + BulkStmts(p, t, run[..j], work))
    decreases |run|, 0
  {
    hide *;
    var w := work + p.work(run[0].bits);
    var stmts := FirstOfBulk(t, run[0], w);
    var rest := Batched(p, t, run[1..], w, stmts);
    assert ([held] + rest)[..n] == [held] + rest[..n - 1];
    RunAllCons(db, held, rest[..n - 1]);
    var m := BatchedCut(p, t, Run(db, held), run[1..], w, stmts, n - 1);
    if n == 1 {
      j := 0;
      assert run[..0] == [];
      StmtsNone(p, t, work, held);
      if rest == [] { BatchedFirst(p, t, run, work); }
    } else {
      j := m + 1;
      FirstOfPart(p, t, run, work, m);
      RunAppend(db, held, BulkStmts(p, t, run[..j], work));
    }
  }

  /** The statements of a header are some, and leave a batch. */
  lemma {:induction false} BatchedFirst(p: Params, t: seq<Row>, run: seq<Header>, work: nat)
    requires run != []
    ensures var w := work + p.work(run[0].bits);
            var stmts := FirstOfBulk(t, run[0], w);
            0 < |stmts| <= CHUNK && Batched(p, t, run[1..], w, stmts) != []
  {
    hide HeldInactive;
  }

  lemma {:induction false} BatchOnly(db: Db, held: seq<Stmt>, batches: seq<seq<Stmt>>, n: nat)
    requires batches == (if held == [] then [] else [held]) && n <= |batches|
    ensures RunAll(db, batches[..n]) == if n == 0 then db else Run(db, held)
  {
    if n == 1 {
      assert batches[..n] == [held];
      RunAllOne(db, held);
    }
  }

  lemma {:induction false} FirstOfPart(p: Params, t: seq<Row>, run: seq<Header>, work: nat, m: nat)
    requires run != [] && m < |run|
    ensures var w := work + p.work(run[0].bits);
            BulkStmts(p, t, run[..m + 1], work) == FirstOfBulk(t, run[0], w) + BulkStmts(p, t, run[1..][..m], w)
  {
    hide HeldInactive;
    assert run[..m + 1][0] == run[0] && run[..m + 1][1..] == run[1..][..m];
  }

  lemma {:induction false} CanonicalIsTxs(db: Db, run: seq<Header>)
    ensures RunAll(db, CanonicalTxs(db, run)) == CanonicalizePushed(db, run).0
  {
    hide AllSole, ChildOf, Heads, Run, ActivationBatch, HighestActive;
    if run == [] {
      RunAllNone(db);
    } else {
      var link := [LinkSpan(run[0].height, run[|run| - 1].height + 1)];
      match CanonicalizePushed(db, run).1 {
        case Served =>
          RunAllCons(db, link, TipTxs(Run(db, link)));
          TipIsTxs(Run(db, link));
        case StoredInactive => RunAllNone(db);
        case Activated => RunAllOne(db, ActivationBatch(db.rows, run, ChildOf(db.rows, run[|run| - 1]).value));
      }
    }
  }

  lemma {:induction false} TipIsTxs(db: Db)
    ensures RunAll(db, TipTxs(db)) == TipToHighest(db)
  {
    hide Run;
    if HighestActive(db.rows).Some? {
      RunAllOne(db, [ClearChainTip, SetChainTip(db.rows[HighestActive(db.rows).value].h.hash)]);
    } else {
      RunAllNone(db);
    }
  }

  /** One header of the live path and its transactions. */
  lemma {:induction false} EachTxsStep(all: iset<Header>, p: Params, db: Db, run: seq<Header>)
    requires Agree(all) && AllIn(all, run) && AllIn(all, Heads(db.rows)) && Sound(Heads(db.rows)) && run != []
    ensures Admissible(Heads(db.rows), run[0]) && AllIn(all, run[1..])
    ensures var out := InsertHeader(p, db, run[0]);
            var db1 := RunAll(db, out.txs);
            && AllIn(all, Heads(db1.rows)) && Sound(Heads(db1.rows))
            && EachTxs(all, p, db, run) == out.txs + (if Failed(out.result) then [] else EachTxs(all, p, db1, run[1..]))
            && InsertEach(all, p, db, run) ==
                 if Failed(out.result) then (db1, out.result) else InsertEach(all, p, db1, run[1..])
  {
    AgreeAdmits(all, Heads(db.rows), run[0]);
    hide Sound, RunAll, InsertHeader, Fits, Admissible, Heads;
    InsertHeads(p, db, run[0]);
    InsertGrows(all, p, db, run[0]);
  }

  lemma {:induction false} EachTxsNone(all: iset<Header>, p: Params, db: Db)
    requires Agree(all) && AllIn(all, []) && AllIn(all, Heads(db.rows)) && Sound(Heads(db.rows))
    ensures EachTxs(all, p, db, []) == [] && InsertEach(all, p, db, []) == (db, Added(false, 0)) && RunAll(db, []) == db
  {
  }

  lemma {:induction false} EachIsTxs(all: iset<Header>, p: Params, db: Db, run: seq<Header>)
    requires Agree(all) && AllIn(all, run) && AllIn(all, Heads(db.rows)) && Sound(Heads(db.rows))
    ensures RunAll(db, EachTxs(all, p, db, run)) == InsertEach(all, p, db, run).0
    decreases |run|
  {
    hide *;
    if run == [] {
      EachTxsNone(all, p, db);
    } else {
      EachTxsStep(all, p, db, run);
      var out := InsertHeader(p, db, run[0]);
      var db1 := RunAll(db, out.txs);
      if Failed(out.result) {
        assert out.txs + [] == out.txs;
      } else {
        RunAllAppend(db, out.txs, EachTxs(all, p, db1, run[1..]));
        EachIsTxs(all, p, db1, run[1..]);
      }
    }
  }

  lemma {:induction false} BatchedIs(p: Params, db: Db, run: seq<Header>, work: nat)
    ensures RunAll(db, Batched(p, db.rows, run, work, [])) == Run(db, BulkStmts(p, db.rows, run, work))
  {
    var batches := Batched(p, db.rows, run, work, []);
    assert 0 <= CHUNK;
    hide *;
    var j := BatchedCut(p, db.rows, db, run, work, [], |batches|);
    assert batches[..|batches|] == batches && run[..|run|] == run;
    assert [] + BulkStmts(p, db.rows, run, work) == BulkStmts(p, db.rows, run, work);
    if batches == [] {
      NoBatches(p, db, run, work);
    }
  }

  lemma {:induction false} NoBatches(p: Params, db: Db, run: seq<Header>, work: nat)
    requires Batched(p, db.rows, run, work, []) == []
    ensures Run(db, BulkStmts(p, db.rows, run, work)) == db
  {
    if run != [] {
      BatchedSome(p, db.rows, run, work, []);
    } else {
      RunNone(db);
    }
  }

  lemma {:induction false} BatchIsTxs(all: iset<Header>, p: Params, db: Db, run: seq<Header>)
    requires Agree(all) && AllIn(all, run) && AllIn(all, Heads(db.rows)) && Sound(Heads(db.rows))
    ensures RunAll(db, BatchTxs(all, p, db, run)) == InsertHeadersBatch(all, p, db, run).0
  {
    RunAllNone(db);
    if run != [] {
      EachIsTxs(all, p, db, run);
      BatchedIs(p, db, run, RunWork(db.rows, run));
      hide Agree, AllIn, Sound, Heads, JudgeRun, Competes, InsertEach, EachTxs, Run, RunAll, BulkStmts, Batched, RunWork;
    }
  }

  /** The transactions of a push run in order are the push. */
  lemma {:induction false} PushIsTxs(all: iset<Header>, p: Params, db: Db, run: seq<Header>)
    requires Agree(all) && AllIn(all, run) && AllIn(all, Heads(db.rows)) && Sound(Heads(db.rows))
    ensures RunAll(db, PushTxs(all, p, db, run)) == IngestPushed(all, p, db, run).0
  {
    BatchIsTxs(all, p, db, run);
    var (mid, result) := InsertHeadersBatch(all, p, db, run);
    var txs := BatchTxs(all, p, db, run);
    CanonicalIsTxs(mid, run);
    RunAllAppend(db, txs, CanonicalTxs(mid, run));
    hide Agree, AllIn, Sound, Heads, InsertHeadersBatch, BatchTxs, CanonicalTxs, CanonicalizePushed, RunAll;
    assert txs + [] == txs;
  }

  // ── A push through the live writer, cut off ──────────────────────────────

  lemma {:induction false} AllGoodJoin(p: Params, db: Db, a: seq<seq<Stmt>>, b: seq<seq<Stmt>>)
    requires AllGood(p, db, a) && AllGood(p, RunAll(db, a), b)
    ensures AllGood(p, db, a + b)
    decreases |a|
  {
    if a == [] {
      assert a + b == b;
    } else {
      hide Good;
      assert (a + b)[0] == a[0] && (a + b)[1..] == a[1..] + b;
      AllGoodJoin(p, Run(db, a[0]), a[1..], b);
    }
  }

  lemma {:induction false} EachTxsGood(all: iset<Header>, p: Params, db: Db, run: seq<Header>)
    requires Agree(all) && AllIn(all, run) && AllIn(all, Heads(db.rows)) && Good(p, db.rows) && p.Ascending()
    requires Sound(Heads(db.rows))
    ensures AllGood(p, db, EachTxs(all, p, db, run))
    decreases |run|
  {
    hide *;
    if run == [] {
      EachTxsNone(all, p, db);
      AllGoodNil(p, db);
    } else {
      EachTxsStep(all, p, db, run);
      var out := InsertHeader(p, db, run[0]);
      InsertKeepsClean(p, db, run[0]);
      AllGoodLast(p, db, out.txs);
      if Failed(out.result) {
        assert out.txs + [] == out.txs;
      } else {
        EachTxsGood(all, p, RunAll(db, out.txs), run[1..]);
        AllGoodJoin(p, db, out.txs, EachTxs(all, p, RunAll(db, out.txs), run[1..]));
      }
    }
  }

  lemma {:induction false} GrownIsGood(p: Params, t: seq<Row>, k: nat)
    requires Grown(p, t, k, k)
    ensures Good(p, t) && GoodAt(p, t, k)
  {
    hide Sound, Path, Root;
    assert GoodAt(p, t, k);
  }

  /** A served push on a good store: linked, then the tip moved to where it was. */
  lemma {:induction false} ServedTxsGood(p: Params, db: Db, k: nat, run: seq<Header>)
    requires GoodAt(p, db.rows, k) && LinksTrue(db.rows) && AllActive(db.rows, run) && run != []
    ensures AllGood(p, db, CanonicalTxs(db, run))
  {
    var lo, hi := run[0].height, run[|run| - 1].height + 1;
    ServedTxsAre(p, db, k, run);
    hide *;
    var linked := Run(db, [LinkSpan(lo, hi)]);
    GoodIsGrown(p, db.rows, k);
    GrownIsGood(p, db.rows, k);
    LinkSpanKeeps(p, db, k, k, lo, hi);
    GrownIsGood(p, linked.rows, k);
    TipToTop(p, linked, k, k);
    GoodFrom(p, TipToHighest(linked).rows, k);
    TipTxsGood(p, linked);
    AllGoodCons(p, db, [LinkSpan(lo, hi)], TipTxs(linked));
  }

  lemma {:induction false} TipTxsGood(p: Params, db: Db)
    requires Good(p, db.rows) && Good(p, TipToHighest(db).rows)
    ensures AllGood(p, db, TipTxs(db))
  {
    hide Good, Run;
    if HighestActive(db.rows).Some? {
      var tx := [ClearChainTip, SetChainTip(db.rows[HighestActive(db.rows).value].h.hash)];
      AllGoodNil(p, Run(db, tx));
      AllGoodCons(p, db, tx, []);
    }
  }

  lemma {:induction false} ServedTxsAre(p: Params, db: Db, k: nat, run: seq<Header>)
    requires GoodAt(p, db.rows, k) && LinksTrue(db.rows) && AllActive(db.rows, run) && run != []
    ensures var link := [LinkSpan(run[0].height, run[|run| - 1].height + 1)];
            CanonicalTxs(db, run) == [link] + TipTxs(Run(db, link))
  {
    GoodIsGrown(p, db.rows, k);
    hide GoodAt, LinksTrue, Grown, AllActive, CanonicalizePushed, Run, TipTxs;
    CanonicalizeGrown(p, db, k, k, run);
  }

  lemma {:induction false} CanonicalTxsGood(p: Params, db: Db, run: seq<Header>)
    requires Good(p, db.rows) && Linked(run) && AllStored(db.rows, run)
    ensures AllGood(p, db, CanonicalTxs(db, run))
  {
    if run == [] {
      AllGoodNil(p, db);
    } else {
      assert Stored(db.rows, run[0]);
      var k: nat :| GoodAt(p, db.rows, k);
      if AllSole(db.rows, run) {
        AllSoleActive(db.rows, run);
        ServedTxsGood(p, db, k, run);
      } else {
        NeverActivatesOnClean(db, k, run);
        AllGoodNil(p, db);
        hide Good, AllSole, Linked, AllStored;
      }
    }
  }

  /** Every transaction boundary of a push through the live writer is a good
      store. */
  lemma {:induction false} LivePushGood(all: iset<Header>, p: Params, db: Db, run: seq<Header>)
    requires Agree(all) && AllIn(all, run) && AllIn(all, Heads(db.rows)) && Good(p, db.rows) && p.Ascending()
    requires Sound(Heads(db.rows)) && Linked(run)
    ensures var (mid, result) := InsertEach(all, p, db, run);
            AllGood(p, db, EachTxs(all, p, db, run) + if Failed(result) then [] else CanonicalTxs(mid, run))
  {
    hide *;
    var (mid, result) := InsertEach(all, p, db, run);
    EachTxsGood(all, p, db, run);
    EachIsTxs(all, p, db, run);
    EachKeepsClean(all, p, db, run);
    if Failed(result) {
      assert EachTxs(all, p, db, run) + [] == EachTxs(all, p, db, run);
    } else {
      CarriedGood(all, p, db, mid);
      HeadsStored(mid.rows, run);
      CanonicalTxsGood(p, mid, run);
      AllGoodJoin(p, db, EachTxs(all, p, db, run), CanonicalTxs(mid, run));
    }
  }

  // ── A push through the bulk writer, cut off ──────────────────────────────

  lemma {:induction false} Slices(run: seq<Header>, j: nat)
    requires 0 < j <= |run|
    ensures run[..j] != [] && run[..j][0] == run[0] && run[..j][1..] == run[1..][..j - 1] && run[1..][j - 1..] == run[j..]
  {
  }

  /** The run placed is its first part placed, and then the rest. */
  lemma {:induction false} PlaceRunSplit(p: Params, t: seq<Row>, run: seq<Header>, j: nat, work: nat, more: nat)
    requires j <= |run| && more == work + SumWork(p, run[..j])
    ensures PlaceRun(p, t, run, work) == PlaceRun(p, PlaceRun(p, t, run[..j], work), run[j..], more)
    decreases j
  {
    hide *;
    if j == 0 {
      assert run[..0] == [] && run[0..] == run;
      PlaceRunEmpty(p, t, work);
      SumNone(p);
    } else {
      var w := work + p.work(run[0].bits);
      Slices(run, j);
      SumNext(p, run, j - 1);
      PlaceRunNext(p, t, run, work);
      PlaceRunNext(p, t, run[..j], work);
      PlaceRunSplit(p, Place(t, run[0], w), run[1..], j - 1, w, more);
    }
  }

  lemma {:induction false} ActiveTail(t: seq<Row>, run: seq<Header>, j: nat)
    requires 0 < j <= |run| && AllActive(t, run[..j])
    ensures ActiveRow(t, run[0]) && AllActive(t, run[1..][..j - 1])
  {
    hide ActiveRow;
    assert run[..j][0] == run[0];
    var rest := run[1..][..j - 1];
    forall i | 0 <= i < |rest| ensures ActiveRow(t, rest[i]) { assert run[..j][i + 1] == rest[i]; }
  }

  /** Where its first part is active, only the rest of the run is placed. */
  lemma {:induction false} PlaceRunStays(p: Params, t: seq<Row>, run: seq<Header>, j: nat, work: nat, more: nat)
    requires j <= |run| && Sound(Heads(t)) && AllActive(t, run[..j]) && more == work + SumWork(p, run[..j])
    ensures PlaceRun(p, t, run, work) == PlaceRun(p, t, run[j..], more)
    decreases j
  {
    hide *;
    if j == 0 {
      assert run[..0] == [] && run[0..] == run;
      SumNone(p);
    } else {
      var w := work + p.work(run[0].bits);
      Slices(run, j);
      SumNext(p, run, j - 1);
      ActiveTail(t, run, j);
      PlaceRunNext(p, t, run, work);
      PlaceSame(t, run[0], w);
      PlaceRunStays(p, t, run[1..], j - 1, w, more);
    }
  }

  lemma {:induction false} PlaceRunActive(p: Params, t: seq<Row>, run: seq<Header>, work: nat)
    requires Sound(Heads(t)) && AllActive(t, run)
    ensures PlaceRun(p, t, run, work) == t
  {
    hide *;
    assert run[..|run|] == run && run[|run|..] == [];
    PlaceRunStays(p, t, run, |run|, work, work + SumWork(p, run));
    PlaceRunEmpty(p, t, work + SumWork(p, run));
  }

  /** What a bulk push comes to on a clean store. */
  ghost predicate BulkPush(all: iset<Header>, p: Params, db: Db, k: nat, run: seq<Header>)
    requires Sound(Heads(db.rows))
  {
    && Agree(all) && AllIn(all, run) && AllIn(all, Heads(db.rows)) && GoodAt(p, db.rows, k) && LinksTrue(db.rows)
    && run != [] && StandsOnStored(db.rows, run) && JudgeRun(p, db.rows, run).None? && !Competes(db.rows, run)
  }

  lemma {:induction false} BulkParts(all: iset<Header>, p: Params, db: Db, k: nat, run: seq<Header>)
    requires Sound(Heads(db.rows)) && BulkPush(all, p, db, k, run)
    ensures Agree(all) && AllIn(all, run) && AllIn(all, Heads(db.rows)) && GoodAt(p, db.rows, k) && LinksTrue(db.rows)
    ensures run != [] && StandsOnStored(db.rows, run) && JudgeRun(p, db.rows, run).None? && !Competes(db.rows, run)
    ensures Linked(run)
  {
    JudgedLinked(p, db.rows, run);
    hide Sound, Heads, JudgeRun, Competes, GoodAt, Agree;
  }

  lemma {:induction false} PrefixPush(t: seq<Row>, all: iset<Header>, run: seq<Header>, j: nat)
    requires run != [] && 0 < j <= |run| && AllIn(all, run) && Linked(run) && StandsOnStored(t, run) && !Competes(t, run)
    ensures run[..j] != [] && AllIn(all, run[..j]) && Linked(run[..j]) && StandsOnStored(t, run[..j])
    ensures !Competes(t, run[..j]) && RunWork(t, run[..j]) == RunWork(t, run)
  {
    assert run[..j][0] == run[0];
    hide Find, Heads, ChainTip;
  }

  /** The rows of a first part of the run placed: the tip is where it was, and the
      active rows are one path up from it. */
  lemma {:induction false} PlacedPart(all: iset<Header>, p: Params, db: Db, k: nat, run: seq<Header>, j: nat) returns (x: nat)
    requires Sound(Heads(db.rows)) && BulkPush(all, p, db, k, run) && j <= |run|
    ensures var v := PlaceRun(p, db.rows, run[..j], RunWork(db.rows, run));
            && Partway(p, db.rows, k, v, x, run) && AllActive(v, run[..j]) && Sound(Heads(v))
            && Run(db, BulkStmts(p, db.rows, run[..j], RunWork(db.rows, run))) == db.(rows := v)
  {
    hide *;
    BulkParts(all, p, db, k, run);
    var w := RunWork(db.rows, run);
    if j == 0 {
      x := k;
      assert run[..0] == [];
      PlaceRunEmpty(p, db.rows, w);
      GoodIsGrown(p, db.rows, k);
      NoneActive(db.rows);
      AddsNothing(db.rows, run);
      StmtsNone(p, db.rows, w, []);
      RunNone(db);
      assert [] + BulkStmts(p, db.rows, [], w) == BulkStmts(p, db.rows, [], w);
    } else {
      PrefixPush(db.rows, all, run, j);
      x := BulkGrows(all, p, db, k, run[..j]);
      InsertBulkPlaces(all, p, db, run[..j]);
      BulkIs(p, db, run[..j]);
      PlaceRunAdds(all, p, db.rows, run[..j], w);
      AddsMore(db.rows, PlaceRun(p, db.rows, run[..j], w), run, j);
      GrownSound(p, PlaceRun(p, db.rows, run[..j], w), k, x);
    }
    PartwayIs(p, db.rows, k, PlaceRun(p, db.rows, run[..j], w), x, run);
  }

  lemma {:induction false} BulkIs(p: Params, db: Db, run: seq<Header>)
    requires run != []
    ensures InsertBulk(p, db, run) == Run(db, BulkStmts(p, db.rows, run, RunWork(db.rows, run)))
  {
  }

  lemma {:induction false} PartwayIs(p: Params, t: seq<Row>, k: nat, v: seq<Row>, x: nat, run: seq<Header>)
    requires GoodAt(p, t, k) && LinksTrue(t) && Grown(p, v, k, x) && Adds(t, v, run)
    ensures Partway(p, t, k, v, x, run)
  {
  }

  lemma {:induction false} PartwayKnown(all: iset<Header>, p: Params, t: seq<Row>, k: nat, v: seq<Row>, x: nat, run: seq<Header>)
    requires Partway(p, t, k, v, x, run) && AllIn(all, run) && AllIn(all, Heads(t))
    ensures AllIn(all, Heads(v)) && Sound(Heads(v)) && Grown(p, v, k, x)
  {
    hide Sound, Path, Root;
    forall i | 0 <= i < |Heads(v)| ensures Heads(v)[i] in all {
      if i < |t| { assert v[i].h == Heads(t)[i]; } else { assert v[i].h in run; }
    }
  }

  /** The push made again where a first part of its rows is placed. */
  lemma {:induction false} AgainPlaced(all: iset<Header>, p: Params, db: Db, k: nat, run: seq<Header>, j: nat, v: Db, x: nat)
    requires Sound(Heads(db.rows)) && BulkPush(all, p, db, k, run) && j <= |run| && Agree(all) && AllIn(all, run)
    requires v == db.(rows := PlaceRun(p, db.rows, run[..j], RunWork(db.rows, run)))
    requires Partway(p, db.rows, k, v.rows, x, run) && AllActive(v.rows, run[..j])
    requires Sound(Heads(v.rows)) && AllIn(all, Heads(v.rows)) && AllIn(all, Heads(db.rows))
    ensures IngestPushed(all, p, v, run) == IngestPushed(all, p, db, run)
  {
    hide *;
    BulkParts(all, p, db, k, run);
    AcceptedAgain(all, p, db.rows, k, v.rows, x, run);
    var more := RunWork(db.rows, run) + SumWork(p, run[..j]);
    PlaceRunSplit(p, db.rows, run, j, RunWork(db.rows, run), more);
    PlaceRunStays(p, v.rows, run, j, RunWork(db.rows, run), more);
    InsertBulkPlaces(all, p, db, run);
    InsertBulkPlaces(all, p, v, run);
    IngestBulk(all, p, db, run);
    IngestBulk(all, p, v, run);
  }

  /** The span linked twice is the span linked once. */
  lemma {:induction false} FinishedTwice(db: Db, x: nat, lo: nat, hi: nat, u: seq<Row>, u2: seq<Row>)
    requires Finished(db.rows, u, x, lo, hi) && Finished(Run(db, [LinkSpan(lo, hi)]).rows, u2, x, lo, hi)
    ensures u == u2
  {
    var v := Run(db, [LinkSpan(lo, hi)]).rows;
    LinkSpanEffect(db, lo, hi);
    hide Run, Heads;
    forall i | 0 <= i < |u| ensures u[i] == u2[i] {
      assert u[i] == db.rows[i].(tip := i == x, link := LinkIn(db.rows, i, lo, hi));
      assert u2[i] == v[i].(tip := i == x, link := LinkIn(v, i, lo, hi));
    }
  }

  lemma {:induction false} SpanActive(db: Db, lo: nat, hi: nat, run: seq<Header>)
    requires AllActive(db.rows, run)
    ensures AllActive(Run(db, [LinkSpan(lo, hi)]).rows, run) && Run(db, [LinkSpan(lo, hi)]).pending == db.pending
  {
    LinkSpanEffect(db, lo, hi);
    hide Run, Heads;
    var v := Run(db, [LinkSpan(lo, hi)]).rows;
    forall j | 0 <= j < |run| ensures ActiveRow(v, run[j]) {
      assert ActiveRow(db.rows, run[j]);
      var i :| 0 <= i < |db.rows| && db.rows[i].active && db.rows[i].h == run[j];
      assert v[i].active && v[i].h == run[j];
    }
  }

  lemma {:induction false} PartwayParts(p: Params, t: seq<Row>, k: nat, v: seq<Row>, x: nat, run: seq<Header>)
    requires Partway(p, t, k, v, x, run)
    ensures GoodAt(p, t, k) && LinksTrue(t) && Grown(p, v, k, x) && Adds(t, v, run)
  {
  }

  lemma {:induction false} CanonicalTwice(p: Params, mid: Db, v: Db, k: nat, x: nat, run: seq<Header>)
    requires run != [] && v == Run(mid, [LinkSpan(run[0].height, run[|run| - 1].height + 1)])
    requires Grown(p, mid.rows, k, x) && AllActive(mid.rows, run)
    ensures CanonicalizePushed(v, run) == CanonicalizePushed(mid, run)
    ensures Grown(p, v.rows, k, x) && AllActive(v.rows, run)
  {
    var lo, hi := run[0].height, run[|run| - 1].height + 1;
    hide *;
    LinkSpanKeeps(p, mid, k, x, lo, hi);
    SpanActive(mid, lo, hi, run);
    CanonicalizeFinishes(p, mid, k, x, run);
    CanonicalizeFinishes(p, v, k, x, run);
    FinishedTwice(mid, x, lo, hi, CanonicalizePushed(mid, run).0.rows, CanonicalizePushed(v, run).0.rows);
  }

  /** The store with all rows placed and linked is on the way through the push. */
  lemma {:induction false} LinkedPart(all: iset<Header>, p: Params, t: seq<Row>, k: nat, run: seq<Header>, mid: Db, v: Db, x: nat)
    requires run != [] && v == Run(mid, [LinkSpan(run[0].height, run[|run| - 1].height + 1)])
    requires Partway(p, t, k, mid.rows, x, run) && AllActive(mid.rows, run) && AllIn(all, run) && AllIn(all, Heads(t))
    ensures Partway(p, t, k, v.rows, x, run) && Sound(Heads(v.rows)) && AllIn(all, Heads(v.rows)) && AllActive(v.rows, run)
    ensures CanonicalizePushed(v, run) == CanonicalizePushed(mid, run)
  {
    hide *;
    PartwayParts(p, t, k, mid.rows, x, run);
    CanonicalTwice(p, mid, v, k, x, run);
    SpanAdds(t, mid, run[0].height, run[|run| - 1].height + 1, run);
    PartwayIs(p, t, k, v.rows, x, run);
    PartwayKnown(all, p, t, k, v.rows, x, run);
  }

  /** The push made again where all its rows are placed and linked, and only the
      tip was not moved. */
  lemma {:induction false} AgainLinked(all: iset<Header>, p: Params, db: Db, k: nat, run: seq<Header>, mid: Db, v: Db, x: nat)
    requires Sound(Heads(db.rows)) && BulkPush(all, p, db, k, run) && Agree(all) && AllIn(all, run)
    requires run != [] && mid == InsertBulk(p, db, run) && v == Run(mid, [LinkSpan(run[0].height, run[|run| - 1].height + 1)])
    requires Partway(p, db.rows, k, mid.rows, x, run) && AllActive(mid.rows, run) && AllIn(all, Heads(db.rows))
    ensures Partway(p, db.rows, k, v.rows, x, run) && Sound(Heads(v.rows)) && AllIn(all, Heads(v.rows))
    ensures IngestPushed(all, p, v, run) == IngestPushed(all, p, db, run)
  {
    hide *;
    BulkParts(all, p, db, k, run);
    LinkedPart(all, p, db.rows, k, run, mid, v, x);
    AcceptedAgain(all, p, db.rows, k, v.rows, x, run);
    PlaceRunActive(p, v.rows, run, RunWork(v.rows, run));
    InsertBulkPlaces(all, p, v, run);
    IngestBulk(all, p, db, run);
    IngestBulk(all, p, v, run);
  }

  // ── A push cut off anywhere ──────────────────────────────────────────────

  lemma {:induction false} BulkTxsAre(all: iset<Header>, p: Params, db: Db, k: nat, run: seq<Header>, mid: Db, x: nat)
    requires Agree(all) && AllIn(all, run) && AllIn(all, Heads(db.rows)) && Sound(Heads(db.rows))
    requires run != [] && JudgeRun(p, db.rows, run).None? && !Competes(db.rows, run) && mid == InsertBulk(p, db, run)
    requires Grown(p, mid.rows, k, x) && AllActive(mid.rows, run)
    ensures var link := [LinkSpan(run[0].height, run[|run| - 1].height + 1)];
            PushTxs(all, p, db, run) ==
              Batched(p, db.rows, run, RunWork(db.rows, run), []) + ([link] + TipTxs(Run(mid, link)))
  {
    CanonicalizeGrown(p, mid, k, x, run);
    hide Agree, AllIn, Sound, Heads, JudgeRun, Competes, Grown, AllActive, CanonicalizePushed, Run, TipTxs, Batched, BulkStmts,
         InsertEach, RunWork;
  }

  lemma {:induction false} TipTxsShort(db: Db)
    ensures |TipTxs(db)| <= 1
  {
  }

  lemma {:induction false} CutShape(batches: seq<seq<Stmt>>, link: seq<Stmt>, tip: seq<seq<Stmt>>, stop: nat)
    requires stop < |batches + ([link] + tip)| && |tip| <= 1
    ensures stop <= |batches| ==> (batches + ([link] + tip))[..stop] == batches[..stop]
    ensures |batches| < stop ==> (batches + ([link] + tip))[..stop] == batches + [link]
  {
  }

  /** The first batches are the statements of a first part of the run. */
  lemma {:induction false} FirstBatches(p: Params, db: Db, run: seq<Header>, work: nat, stop: nat) returns (j: nat)
    requires stop <= |Batched(p, db.rows, run, work, [])|
    ensures j <= |run|
    ensures RunAll(db, Batched(p, db.rows, run, work, [])[..stop]) == Run(db, BulkStmts(p, db.rows, run[..j], work))
  {
    assert 0 <= CHUNK;
    hide *;
    if stop == 0 {
      j := 0;
      assert Batched(p, db.rows, run, work, [])[..stop] == [] && run[..0] == [];
      RunAllNone(db);
      StmtsNone(p, db.rows, work, []);
      assert [] + BulkStmts(p, db.rows, [], work) == BulkStmts(p, db.rows, [], work);
      RunNone(db);
    } else {
      j := BatchedCut(p, db.rows, db, run, work, [], stop);
      assert [] + BulkStmts(p, db.rows, run[..j], work) == BulkStmts(p, db.rows, run[..j], work);
    }
  }

  /** Between two batches of a bulk push: the rows of a first part of the run. */
  lemma {:induction false} CutInBatches(all: iset<Header>, p: Params, db: Db, k: nat, run: seq<Header>, stop: nat, v: Db)
    returns (x: nat)
    requires Sound(Heads(db.rows)) && BulkPush(all, p, db, k, run) && run != []
    requires Agree(all) && AllIn(all, run) && AllIn(all, Heads(db.rows))
    requires stop <= |Batched(p, db.rows, run, RunWork(db.rows, run), [])|
    requires v == RunAll(db, Batched(p, db.rows, run, RunWork(db.rows, run), [])[..stop])
    ensures Partway(p, db.rows, k, v.rows, x, run) && Sound(Heads(v.rows)) && AllIn(all, Heads(v.rows))
    ensures IngestPushed(all, p, v, run) == IngestPushed(all, p, db, run)
  {
    hide *;
    var j := FirstBatches(p, db, run, RunWork(db.rows, run), stop);
    x := PlacedPart(all, p, db, k, run, j);
    PartwayKnown(all, p, db.rows, k, v.rows, x, run);
    AgainPlaced(all, p, db, k, run, j, v, x);
  }

  /** A bulk push on a clean store cut off before its last transaction: the tip is
      where it was, the active rows are one path up from it, and the same push made
      again is accepted and leaves what the uncut push leaves. */
  lemma {:induction false} BulkPushCut(all: iset<Header>, p: Params, db: Db, k: nat, run: seq<Header>, stop: nat) returns (x: nat)
    requires Sound(Heads(db.rows)) && BulkPush(all, p, db, k, run) && run != []
    requires Agree(all) && AllIn(all, run) && AllIn(all, Heads(db.rows)) && stop < |PushTxs(all, p, db, run)|
    ensures var v := RunAll(db, PushTxs(all, p, db, run)[..stop]);
            && Partway(p, db.rows, k, v.rows, x, run) && Sound(Heads(v.rows)) && AllIn(all, Heads(v.rows))
            && IngestPushed(all, p, v, run) == IngestPushed(all, p, db, run)
  {
    assert 0 <= CHUNK;
    hide *;
    BulkParts(all, p, db, k, run);
    var batches := Batched(p, db.rows, run, RunWork(db.rows, run), []);
    var link := [LinkSpan(run[0].height, run[|run| - 1].height + 1)];
    var mid := InsertBulk(p, db, run);
    x := PlacedPart(all, p, db, k, run, |run|);
    assert run[..|run|] == run;
    BulkIs(p, db, run);
    PartwayParts(p, db.rows, k, mid.rows, x, run);
    BulkTxsAre(all, p, db, k, run, mid, x);
    TipTxsShort(Run(mid, link));
    CutShape(batches, link, TipTxs(Run(mid, link)), stop);
    if stop <= |batches| {
      x := CutInBatches(all, p, db, k, run, stop, RunAll(db, batches[..stop]));
    } else {
      RunAllAppend(db, batches, [link]);
      BatchedIs(p, db, run, RunWork(db.rows, run));
      RunAllOne(mid, link);
      AgainLinked(all, p, db, k, run, mid, Run(mid, link), x);
    }
  }

  /** A push on a good store that stands on a stored row, cut off between any two
      of its transactions, leaves a good store, or, on the bulk path, one path of
      active rows up from the tip of the good store it began on; and there the same
      push made again leaves the store the uncut push leaves. */
  lemma {:induction false} PushCutAnywhere(all: iset<Header>, p: Params, db: Db, run: seq<Header>, stop: nat)
    requires Inv(all, p, db) && Allowed(all, db, PushCall(run))
    ensures Agree(all) && AllIn(all, run) && AllIn(all, Heads(db.rows)) && Sound(Heads(db.rows))
    ensures var v := RunAll(db, Cut(PushTxs(all, p, db, run), stop));
            && Sound(Heads(v.rows)) && AllIn(all, Heads(v.rows))
            && (Good(p, v.rows) || exists k: nat, x: nat :: Partway(p, db.rows, k, v.rows, x, run))
            && (run != [] && !Competes(db.rows, run) && stop < |PushTxs(all, p, db, run)| ==>
                  IngestPushed(all, p, v, run) == IngestPushed(all, p, db, run))
  {
    AllowedParts(all, p, db, run);
    hide *;
    if |PushTxs(all, p, db, run)| <= stop {
      WholePush(all, p, db, run, stop);
    } else if run == [] || JudgeRun(p, db.rows, run).Some? || Competes(db.rows, run) {
      OtherPushCut(all, p, db, run, stop);
    } else {
      var k := ClearTip(p, db, run);
      BulkPushIs(all, p, db, k, run);
      var x := BulkPushCut(all, p, db, k, run, stop);
      CutIs(PushTxs(all, p, db, run), stop);
      assert Partway(p, db.rows, k, RunAll(db, Cut(PushTxs(all, p, db, run), stop)).rows, x, run);
    }
  }

  lemma {:induction false} CutIs(txs: seq<seq<Stmt>>, stop: nat)
    ensures Cut(txs, stop) == if stop < |txs| then txs[..stop] else txs
  {
  }

  lemma {:induction false} AllowedParts(all: iset<Header>, p: Params, db: Db, run: seq<Header>)
    requires Inv(all, p, db) && Allowed(all, db, PushCall(run))
    ensures Agree(all) && AllIn(all, run) && AllIn(all, Heads(db.rows)) && Sound(Heads(db.rows))
    ensures Good(p, db.rows) && p.Ascending() && StandsOnStored(db.rows, run)
  {
    GoodSound(p, db.rows);
  }

  lemma {:induction false} ClearTip(p: Params, db: Db, run: seq<Header>) returns (k: nat)
    requires Good(p, db.rows) && run != [] && StandsOnStored(db.rows, run)
    ensures GoodAt(p, db.rows, k) && LinksTrue(db.rows)
  {
    assert Find(Heads(db.rows), run[0].prev).value < |db.rows|;
    k :| GoodAt(p, db.rows, k);
  }

  lemma {:induction false} BulkPushIs(all: iset<Header>, p: Params, db: Db, k: nat, run: seq<Header>)
    requires Agree(all) && AllIn(all, run) && AllIn(all, Heads(db.rows)) && GoodAt(p, db.rows, k) && LinksTrue(db.rows)
    requires Sound(Heads(db.rows)) && run != [] && StandsOnStored(db.rows, run)
    requires JudgeRun(p, db.rows, run).None? && !Competes(db.rows, run)
    ensures BulkPush(all, p, db, k, run)
  {
    hide Sound, Heads, JudgeRun, Competes, GoodAt, Agree;
  }

  /** The push run to its end. */
  lemma {:induction false} WholePush(all: iset<Header>, p: Params, db: Db, run: seq<Header>, stop: nat)
    requires Agree(all) && AllIn(all, run) && AllIn(all, Heads(db.rows)) && Sound(Heads(db.rows))
    requires Good(p, db.rows) && p.Ascending() && StandsOnStored(db.rows, run) && Inv(all, p, db)
    requires |PushTxs(all, p, db, run)| <= stop
    ensures var v := RunAll(db, Cut(PushTxs(all, p, db, run), stop));
            Good(p, v.rows) && Sound(Heads(v.rows)) && AllIn(all, Heads(v.rows))
  {
    hide *;
    CutIs(PushTxs(all, p, db, run), stop);
    PushIsTxs(all, p, db, run);
    PushKeepsClean(all, p, db, run);
    PushHeads(all, p, db, run);
    GoodSound(p, IngestPushed(all, p, db, run).0.rows);
  }

  /** A push that is empty, refused or goes header by header. */
  lemma {:induction false} OtherTxsGood(all: iset<Header>, p: Params, db: Db, run: seq<Header>)
    requires Agree(all) && AllIn(all, run) && AllIn(all, Heads(db.rows)) && Sound(Heads(db.rows))
    requires Good(p, db.rows) && p.Ascending()
    requires run == [] || JudgeRun(p, db.rows, run).Some? || Competes(db.rows, run)
    ensures AllGood(p, db, PushTxs(all, p, db, run))
    ensures run != [] && JudgeRun(p, db.rows, run).Some? ==> PushTxs(all, p, db, run) == []
  {
    AllGoodNil(p, db);
    hide Agree, AllIn, Sound, Heads, JudgeRun, Competes, EachTxs, InsertEach, CanonicalTxs, AllGood, Good, Run, BulkStmts, Batched;
    if run == [] {
      NoTxs(db);
    } else if JudgeRun(p, db.rows, run).None? {
      JudgedLinked(p, db.rows, run);
      LivePushGood(all, p, db, run);
    }
  }

  lemma {:induction false} NoTxs(db: Db)
    ensures CanonicalTxs(db, []) == []
  {
  }

  lemma {:induction false} GrowOnward(a: seq<Header>, b: seq<Header>, c: seq<Header>)
    requires HeadsGrow(a, b) && HeadsGrow(b, c)
    ensures HeadsGrow(a, c)
  {
  }

  lemma {:induction false} ExecGrows(db: Db, stmt: Stmt)
    ensures HeadsGrow(Heads(db.rows), Heads(Exec(db, stmt).rows))
  {
  }

  /** No statement takes a row away. */
  lemma {:induction false} RunGrows(db: Db, stmts: seq<Stmt>)
    ensures HeadsGrow(Heads(db.rows), Heads(Run(db, stmts).rows))
    decreases |stmts|
  {
    if stmts == [] {
      RunNone(db);
    } else {
      ExecGrows(db, stmts[0]);
      RunGrows(Exec(db, stmts[0]), stmts[1..]);
      hide Exec, Heads, HeadsGrow;
      GrowOnward(Heads(db.rows), Heads(Exec(db, stmts[0]).rows), Heads(Run(db, stmts).rows));
    }
  }

  lemma {:induction false} RunAllGrows(db: Db, txs: seq<seq<Stmt>>)
    ensures HeadsGrow(Heads(db.rows), Heads(RunAll(db, txs).rows))
    decreases |txs|
  {
    if txs == [] {
      RunAllNone(db);
    } else {
      RunGrows(db, txs[0]);
      RunAllGrows(Run(db, txs[0]), txs[1..]);
      hide Run, Heads, HeadsGrow;
      GrowOnward(Heads(db.rows), Heads(Run(db, txs[0]).rows), Heads(RunAll(db, txs).rows));
    }
  }

  lemma {:induction false} CutKnown(all: iset<Header>, db: Db, txs: seq<seq<Stmt>>, stop: nat)
    requires AllIn(all, Heads(RunAll(db, txs).rows))
    ensures AllIn(all, Heads(RunAll(db, Cut(txs, stop)).rows))
  {
    if stop < |txs| {
      assert txs[..stop] + txs[stop..] == txs;
      var a, b := RunAll(db, txs[..stop]), RunAll(db, txs);
      RunAllAppend(db, txs[..stop], txs[stop..]);
      RunAllGrows(a, txs[stop..]);
      hide RunAll, Heads;
      forall i | 0 <= i < |Heads(a.rows)| ensures Heads(a.rows)[i] in all { assert Heads(b.rows)[i] == Heads(a.rows)[i]; }
    }
  }

  lemma {:induction false} OtherPushCut(all: iset<Header>, p: Params, db: Db, run: seq<Header>, stop: nat)
    requires Agree(all) && AllIn(all, run) && AllIn(all, Heads(db.rows)) && Sound(Heads(db.rows))
    requires Good(p, db.rows) && p.Ascending() && stop < |PushTxs(all, p, db, run)|
    requires Inv(all, p, db)
    requires run == [] || JudgeRun(p, db.rows, run).Some? || Competes(db.rows, run)
    ensures run != [] ==> JudgeRun(p, db.rows, run).None? && Competes(db.rows, run)
    ensures var v := RunAll(db, Cut(PushTxs(all, p, db, run), stop));
            Good(p, v.rows) && Sound(Heads(v.rows)) && AllIn(all, Heads(v.rows))
  {
    hide *;
    OtherTxsGood(all, p, db, run);
    CutGood(p, db, PushTxs(all, p, db, run), stop);
    GoodSound(p, RunAll(db, Cut(PushTxs(all, p, db, run), stop)).rows);
    PushIsTxs(all, p, db, run);
    PushHeads(all, p, db, run);
    CutKnown(all, db, PushTxs(all, p, db, run), stop);
  }
}
