/** Runs of calls on the store: live inserts and relinks that may stop at any
    transaction boundary, and pushes that stand on a stored row. */
module Runs {
  import opened Wrappers
  import opened Headers
  import opened HeaderTable
  import opened Ancestor
  import opened CleanStore
  import opened Live
  import opened Bulk
  import opened Push
  import opened PushClean

  /** `stop` is the number of transactions a live call runs before it is cut off;
      a call that is not cut off stops after its last one. */
  datatype Call =
    | InsertCall(h: Header, stop: nat)
    | RelinkCall(hash: Hash, stop: nat)
    | PushCall(run: seq<Header>)

  ghost predicate Inv(all: iset<Header>, p: Params, db: Db) {
    Agree(all) && p.Ascending() && Good(p, db.rows) && AllIn(all, Heads(db.rows))
  }

  /** What a caller hands over: known headers; a push stands on a stored row. */
  ghost predicate Allowed(all: iset<Header>, db: Db, call: Call) {
    match call
    case InsertCall(h, _) => h in all
    case RelinkCall(_, _) => true
    case PushCall(run) => AllIn(all, run) && StandsOnStored(db.rows, run)
  }

  function Cut(txs: seq<seq<Stmt>>, stop: nat): seq<seq<Stmt>> {
    if stop < |txs| then txs[..stop] else txs
  }

  ghost function After(all: iset<Header>, p: Params, db: Db, call: Call): Db
    requires Inv(all, p, db) && Allowed(all, db, call)
  {
    match call
    case InsertCall(h, stop) =>
      AgreeAdmits(all, Heads(db.rows), h);
      RunAll(db, Cut(InsertHeader(p, db, h).txs, stop))
    case RelinkCall(hash, stop) => RunAll(db, Cut(RelinkOrphan(p, db, hash).txs, stop))
    case PushCall(run) => IngestPushed(all, p, db, run).0
  }

  // ── Cut-off calls ────────────────────────────────────────────────────────

  lemma {:induction false} CutGood(p: Params, db: Db, txs: seq<seq<Stmt>>, stop: nat)
    requires AllGood(p, db, txs)
    ensures Good(p, RunAll(db, Cut(txs, stop)).rows)
    decreases |txs|
  {
    if txs != [] && 0 < stop {
      CutGood(p, Run(db, txs[0]), txs[1..], stop - 1);
      assert Cut(txs, stop)[0] == txs[0];
      assert Cut(txs, stop)[1..] == Cut(txs[1..], stop - 1);
    } else {
      assert Cut(txs, stop) == [];
    }
  }

  /** Statements that insert nothing keep the headers. */
  ghost predicate NoInsert(stmts: seq<Stmt>) {
    forall i :: 0 <= i < |stmts| ==> !stmts[i].Insert?
  }

  lemma {:induction false} RunKeepsHeads(db: Db, stmts: seq<Stmt>)
    requires NoInsert(stmts)
    ensures Heads(Run(db, stmts).rows) == Heads(db.rows)
    decreases |stmts|
  {
    if stmts != [] {
      hide Heads;
      RunKeepsHeads(Exec(db, stmts[0]), stmts[1..]);
    }
  }

  ghost predicate NoInserts(txs: seq<seq<Stmt>>) {
    forall i :: 0 <= i < |txs| ==> NoInsert(txs[i])
  }

  lemma {:induction false} RunAllKeepsHeads(db: Db, txs: seq<seq<Stmt>>)
    requires NoInserts(txs)
    ensures Heads(RunAll(db, txs).rows) == Heads(db.rows)
    decreases |txs|
  {
    if txs != [] {
      hide Heads, Run;
      RunKeepsHeads(db, txs[0]);
      RunAllKeepsHeads(Run(db, txs[0]), txs[1..]);
    }
  }

  lemma {:induction false} ReorgToNoInserts(db: Db, n: nat, tip: nat)
    requires Sound(Heads(db.rows)) && n < |db.rows| && tip < |db.rows|
    ensures NoInserts(ReorgTo(db, n, tip).txs)
  {
    hide Sound, Path, Branch;
  }

  /** The headers a cut-off insert leaves. */
  lemma {:induction false} CutHeads(db: Db, txs: seq<seq<Stmt>>, stop: nat, h: Header)
    requires txs != [] && Heads(Run(db, txs[0]).rows) == Heads(db.rows) + [h] && NoInserts(txs[1..])
    ensures var r := Heads(RunAll(db, Cut(txs, stop)).rows); r == Heads(db.rows) || r == Heads(db.rows) + [h]
  {
    hide Run, Heads;
    if stop == 0 {
      assert Cut(txs, stop) == [];
      RunAllNone(db);
    } else {
      assert Cut(txs, stop) == [txs[0]] + Cut(txs[1..], stop - 1);
      RunAllCons(db, txs[0], Cut(txs[1..], stop - 1));
      RunAllKeepsHeads(Run(db, txs[0]), Cut(txs[1..], stop - 1));
    }
  }

  lemma {:induction false} InsertCutHeads(p: Params, db: Db, h: Header, stop: nat)
    requires Sound(Heads(db.rows)) && Admissible(Heads(db.rows), h)
    ensures var r := Heads(RunAll(db, Cut(InsertHeader(p, db, h).txs, stop)).rows);
            r == Heads(db.rows) || r == Heads(db.rows) + [h]
  {
    hide Sound, Run, ReorgTo, RunAll, TipMove, Path, Judge, Fits, Admissible, Cut;
    var t := db.rows;
    var txs := InsertHeader(p, db, h).txs;
    if txs == [] {
      CutNone(db, stop);
    } else {
      var row := NewRow(p, t, h, false);
      InsertedFits(db, row);
      assert Heads(Run(db, [Insert(row)]).rows) == Heads(t) + [h];
      ExtensionHeads(db, NewRow(p, t, h, true));
      if ChainTip(t).Some? {
        ReorgToNoInserts(Run(db, [Insert(row)]), |t|, ChainTip(t).value);
        assert ([[Insert(row)]] + ReorgTo(Run(db, [Insert(row)]), |t|, ChainTip(t).value).txs)[1..]
            == ReorgTo(Run(db, [Insert(row)]), |t|, ChainTip(t).value).txs;
      }
      CutHeads(db, txs, stop, h);
    }
  }

  lemma {:induction false} CutNone(db: Db, stop: nat)
    ensures RunAll(db, Cut([], stop)) == db
  {
  }

  lemma {:induction false} RelinkNoInserts(p: Params, db: Db, hash: Hash)
    requires Sound(Heads(db.rows))
    ensures NoInserts(RelinkOrphan(p, db, hash).txs)
  {
    hide Sound, Path, ReorgTo, Run, LoadWindow, CheckContext;
    var hs := Heads(db.rows);
    if RelinkOrphan(p, db, hash).txs != [] {
      var i := Find(hs, hash).value;
      var q := Parent(hs, i).value;
      RelinkEffect(p, db, i, q);
      var db1 := Run(db, RelinkTx(p, db.rows, i, q));
      if ChainTip(db1.rows).Some? {
        ReorgToNoInserts(db1, i, ChainTip(db1.rows).value);
      }
    }
  }

  lemma {:induction false} CutNoInserts(txs: seq<seq<Stmt>>, stop: nat)
    requires NoInserts(txs)
    ensures NoInserts(Cut(txs, stop))
  {
  }

  // ── A push keeps to known headers ────────────────────────────────────────

  lemma {:induction false} BulkHeads(all: iset<Header>, p: Params, t0: seq<Row>, db: Db, run: seq<Header>, work: nat)
    requires AllIn(all, run) && AllIn(all, Heads(db.rows))
    ensures AllIn(all, Heads(Run(db, BulkStmts(p, t0, run, work)).rows))
    decreases |run|
  {
    if run == [] {
      RunNone(db);
    } else {
      RestIn(all, run);
      hide *;
      var w := work + p.work(run[0].bits);
      BulkNext(p, t0, run, 0, work);
      assert run[0..] == run;
      RunAppend(db, FirstOfBulk(t0, run[0], w), BulkStmts(p, t0, run[1..], w));
      FirstOfBulkHeads(all, p, db, t0, run[0], w);
      BulkHeads(all, p, t0, Run(db, FirstOfBulk(t0, run[0], w)), run[1..], w);
    }
  }

  lemma {:induction false} FirstOfBulkHeads(all: iset<Header>, p: Params, db: Db, t0: seq<Row>, h: Header, work: nat)
    requires AllIn(all, Heads(db.rows)) && h in all
    ensures AllIn(all, Heads(Run(db, FirstOfBulk(t0, h, work)).rows))
  {
    hide Run, HeldInactive, AllIn, Heads;
    FirstHeads(all, db, FirstOfBulk(t0, h, work), Row(h, None, true, false, work));
  }

  lemma {:induction false} FirstHeads(all: iset<Header>, db: Db, first: seq<Stmt>, row: Row)
    requires AllIn(all, Heads(db.rows)) && row.h in all
    requires first == [Insert(row)] || (|first| == 2 && !first[0].Insert? && first[1] == Insert(row))
    ensures AllIn(all, Heads(Run(db, first).rows))
  {
    hide Exec;
    if |first| == 2 {
      assert first == [first[0], first[1]];
      RunTwo(db, first[0], first[1]);
      InsertKnown(all, Exec(db, first[0]), row);
    } else {
      RunOne(db, first[0]);
      InsertKnown(all, db, row);
    }
  }

  lemma {:induction false} InsertKnown(all: iset<Header>, db: Db, row: Row)
    requires AllIn(all, Heads(db.rows)) && row.h in all
    ensures AllIn(all, Heads(Exec(db, Insert(row)).rows))
  {
    var r := Exec(db, Insert(row));
    assert r == db || Heads(r.rows) == Heads(db.rows) + [row.h];
  }

  /** No statement of the canonicalization inserts a row. */
  lemma {:induction false} CanonicalizeHeads(db: Db, run: seq<Header>)
    ensures Heads(CanonicalizePushed(db, run).0.rows) == Heads(db.rows)
  {
    hide Run, AllSole, Heads;
    if run != [] {
      var link := [LinkSpan(run[0].height, run[|run| - 1].height + 1)];
      RunKeepsHeads(db, link);
      TipToHighestHeads(Run(db, link));
      if ChildOf(db.rows, run[|run| - 1]).Some? {
        var c := ChildOf(db.rows, run[|run| - 1]).value;
        RunKeepsHeads(db, ActivationBatch(db.rows, run, c));
      }
    }
  }

  lemma {:induction false} TipToHighestHeads(db: Db)
    ensures Heads(TipToHighest(db).rows) == Heads(db.rows)
  {
    hide Run, Heads;
    if HighestActive(db.rows).Some? {
      RunKeepsHeads(db, [ClearChainTip, SetChainTip(db.rows[HighestActive(db.rows).value].h.hash)]);
    }
  }

  lemma {:induction false} BatchHeads(all: iset<Header>, p: Params, db: Db, run: seq<Header>)
    requires Inv(all, p, db) && AllIn(all, run)
    ensures AllIn(all, Heads(InsertHeadersBatch(all, p, db, run).0.rows))
  {
    hide Good, Heads, JudgeRun, Competes, Run, Agree, Carried;
    if run != [] {
      assert Sound(Heads(db.rows)) by { GoodSound(p, db.rows); }
      BulkHeads(all, p, db.rows, db, run, RunWork(db.rows, run));
      EachKeepsClean(all, p, db, run);
      CarriedKnown(all, p, db, InsertEach(all, p, db, run).0);
    }
  }

  lemma {:induction false} GoodSound(p: Params, t: seq<Row>)
    requires Good(p, t)
    ensures Sound(Heads(t))
  {
  }

  lemma {:induction false} InvSound(all: iset<Header>, p: Params, db: Db)
    requires Inv(all, p, db)
    ensures Sound(Heads(db.rows))
  {
    GoodSound(p, db.rows);
  }

  lemma {:induction false} CarriedKnown(all: iset<Header>, p: Params, a: Db, b: Db)
    requires Carried(all, p, a, b)
    ensures AllIn(all, Heads(b.rows))
  {
  }

  lemma {:induction false} PushHeads(all: iset<Header>, p: Params, db: Db, run: seq<Header>)
    requires Inv(all, p, db) && AllIn(all, run)
    ensures AllIn(all, Heads(IngestPushed(all, p, db, run).0.rows))
  {
    hide Good, Heads, InsertHeadersBatch, CanonicalizePushed, Agree;
    GoodSound(p, db.rows);
    BatchHeads(all, p, db, run);
    CanonicalizeHeads(InsertHeadersBatch(all, p, db, run).0, run);
  }

  // ── Whole runs ───────────────────────────────────────────────────────────

  /** Every call, cut off anywhere or answered with an error, keeps the store
      good and its headers known. */
  lemma {:induction false} CallKeeps(all: iset<Header>, p: Params, db: Db, call: Call)
    requires Inv(all, p, db) && Allowed(all, db, call)
    ensures Inv(all, p, After(all, p, db, call))
  {
    match call {
      case InsertCall(h, stop) => InsertCallKeeps(all, p, db, h, stop);
      case RelinkCall(hash, stop) => RelinkCallKeeps(all, p, db, hash, stop);
      case PushCall(run) =>
        hide Good, Heads, Agree, IngestPushed;
        PushKeepsClean(all, p, db, run);
        PushHeads(all, p, db, run);
    }
  }

  lemma {:induction false} InsertCallKeeps(all: iset<Header>, p: Params, db: Db, h: Header, stop: nat)
    requires Inv(all, p, db) && h in all
    ensures Inv(all, p, After(all, p, db, InsertCall(h, stop)))
  {
    hide Good, Sound, Heads, InsertHeader, Cut, RunAll, Admissible, AllGood;
    AgreeAdmits(all, Heads(db.rows), h);
    GoodSound(p, db.rows);
    InsertKeepsClean(p, db, h);
    CutGood(p, db, InsertHeader(p, db, h).txs, stop);
    InsertCutHeads(p, db, h, stop);
  }

  lemma {:induction false} RelinkCallKeeps(all: iset<Header>, p: Params, db: Db, hash: Hash, stop: nat)
    requires Inv(all, p, db)
    ensures Inv(all, p, After(all, p, db, RelinkCall(hash, stop)))
  {
    hide Good, Sound, Heads, RelinkOrphan, Cut, RunAll, AllGood, Agree;
    GoodSound(p, db.rows);
    RelinkKeepsClean(p, db, hash);
    CutGood(p, db, RelinkOrphan(p, db, hash).txs, stop);
    RelinkNoInserts(p, db, hash);
    CutNoInserts(RelinkOrphan(p, db, hash).txs, stop);
    RunAllKeepsHeads(db, Cut(RelinkOrphan(p, db, hash).txs, stop));
  }

  /** The state a run of calls ends in; a call its caller may not make is not
      made. */
  ghost function Replay(all: iset<Header>, p: Params, db: Db, calls: seq<Call>): Db
    requires Inv(all, p, db)
    decreases |calls|
  {
    if calls == [] then db
    else if Allowed(all, db, calls[0]) then
      CallKeeps(all, p, db, calls[0]);
      Replay(all, p, After(all, p, db, calls[0]), calls[1..])
    else Replay(all, p, db, calls[1..])
  }

  lemma {:induction false} ReplayGood(all: iset<Header>, p: Params, db: Db, calls: seq<Call>)
    requires Inv(all, p, db)
    ensures Inv(all, p, Replay(all, p, db, calls))
    decreases |calls|
  {
    hide Inv, Allowed, After;
    if calls != [] {
      if Allowed(all, db, calls[0]) {
        CallKeeps(all, p, db, calls[0]);
        ReplayGood(all, p, After(all, p, db, calls[0]), calls[1..]);
      } else {
        ReplayGood(all, p, db, calls[1..]);
      }
    }
  }

  lemma {:induction false} EmptyIsGood(all: iset<Header>, p: Params)
    requires Agree(all) && p.Ascending()
    ensures Inv(all, p, EMPTY)
  {
  }

  /** From an empty store, every run of calls, each cut off anywhere, ends in an
      empty store or one linked chain: one tip, one active row a height, each
      naming the active row below, down to the anchor. */
  lemma {:induction false} EveryRunIsOneLinkedChain(all: iset<Header>, p: Params, calls: seq<Call>)
    requires Agree(all) && p.Ascending()
    ensures Inv(all, p, EMPTY)
    ensures var t := Replay(all, p, EMPTY, calls).rows;
            t == [] || exists k: nat, anchor: nat :: OneLinkedChain(t, k, anchor) && Vouched(p, t[anchor].h)
  {
    EmptyIsGood(all, p);
    ReplayGood(all, p, EMPTY, calls);
    var t := Replay(all, p, EMPTY, calls).rows;
    if t != [] {
      GoodIsChain(p, t);
    }
  }

  lemma {:induction false} GoodIsChain(p: Params, t: seq<Row>)
    requires Good(p, t) && t != []
    ensures exists k: nat, anchor: nat :: OneLinkedChain(t, k, anchor) && Vouched(p, t[anchor].h)
  {
    var k: nat :| GoodAt(p, t, k);
    CleanIsOneLinkedChain(t, k);
    hide OneLinkedChain, CleanAt;
    assert OneLinkedChain(t, k, Root(Heads(t), k));
  }
}
