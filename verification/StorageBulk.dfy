/** The bulk writer and the push over the header store, as the loops that run
    them (src/storage.rs:1034-1289, 1480-1597). */
module StorageBulk {
  import opened Wrappers
  import opened Headers
  import opened HeaderTable
  import opened CleanStore
  import opened Live
  import opened Bulk
  import opened Push
  import opened PushCut
  import opened Storage

  // ── Judging ──────────────────────────────────────────────────────────────

  /** The context checks, the window grown by each header
      (src/storage.rs:1144-1166). */
  method JudgeContext(store: HeaderStore, p: Params, loaded: seq<Link>, run: seq<Header>,
                      below: Option<nat>, vouched: Option<nat>) returns (fault: Option<Fault>)
    ensures fault == ContextFault(p, loaded, run, below, vouched, store.rows)
  {
    hide CheckContext, ServedAt;
    var window := loaded;
    var i := 0;
    while i < |run|
      invariant 0 <= i <= |run|
      invariant ContextFault(p, loaded, run, below, vouched, store.rows)
             == ContextFault(p, window, run[i..], below, vouched, store.rows)
    {
      var h := run[i];
      assert run[i..][0] == h && run[i..][1..] == run[i + 1..];
      if below.Some? && h.height < below.value && !ServedAt(store.rows, h) {
        return Some(ForkPriorToCheckpoint(below.value));
      }
      var verdict := if (vouched.Some? && h.height <= vouched.value) || h.height == 0 then p.CheckCheckpoint(h)
                     else CheckContext(p, window, h);
      if verdict.Some? { return verdict; }
      window := window + [LinkOf(h)];
      i := i + 1;
    }
    fault := None;
  }

  /** The rules of a whole run (src/storage.rs:1046-1166). */
  method JudgeBatch(store: HeaderStore, p: Params, run: seq<Header>) returns (fault: Option<Fault>)
    requires store.Sane() && run != []
    ensures fault == JudgeRun(p, store.rows, run)
  {
    hide Sound, LinksTrue, LoadWindow, ContextFault, Linked;
    if exists i :: 0 <= i < |run| && !p.pow(run[i]) { return Some(HighHash); }
    if !Linked(run) { return Some(PrevNotFound); }
    var first := run[0];
    var tip := ChainTip(store.rows);
    var parent := Find(Heads(store.rows), first.prev);
    var below := StoredCheckpointAbove(p, store.rows, first.height, tip);
    if parent.Some? {
      if first.height != store.rows[parent.value].h.height + 1 { return Some(BadPrev); }
      var window := store.CollectWindow(parent.value, WindowDepth(p, run));
      fault := JudgeContext(store, p, window, run, below, None);
    } else if first.height == 0 || first.prev == ZERO_HASH {
      var verdict := p.CheckUnlinked(first, tip.None?);
      if verdict.0.Some? { return verdict.0; }
      fault := JudgeContext(store, p, [], run, below, Some(0));
    } else {
      var vouched := CheckpointInside(p.checkpoints, first.height, run[|run| - 1].height);
      if vouched.None? { return Some(PrevNotFound); }
      fault := JudgeContext(store, p, [], run, below, vouched);
    }
  }

  // ── Writing ──────────────────────────────────────────────────────────────

  /** What the bulk loop has reached: the table once the statements it holds are
      executed. */
  ghost predicate Written(p: Params, was: Db, run: seq<Header>, work: nat, i: nat, running: nat, reached: Db)
    requires i <= |run|
  {
    Run(was, BulkStmts(p, was.rows, run, work)) == Run(reached, BulkStmts(p, was.rows, run[i..], running))
  }

  lemma {:induction false} WrittenStart(p: Params, was: Db, run: seq<Header>, work: nat)
    ensures Written(p, was, run, work, 0, work, Run(was, []))
  {
    assert run[0..] == run;
    assert Run(was, []) == was;
  }

  lemma {:induction false} WrittenNext(p: Params, was: Db, run: seq<Header>, work: nat, i: nat, running: nat, now: Db, held: seq<Stmt>)
    requires i < |run| && Written(p, was, run, work, i, running, Run(now, held))
    ensures var w := running + p.work(run[i].bits);
            Written(p, was, run, work, i + 1, w, Run(now, held + FirstOfBulk(was.rows, run[i], w)))
  {
    var w := running + p.work(run[i].bits);
    var first := FirstOfBulk(was.rows, run[i], w);
    BulkNext(p, was.rows, run, i, running);
    hide Run, HeldInactive, BulkStmts, FirstOfBulk;
    RunAppend(now, held, first);
    RunAppend(Run(now, held), first, BulkStmts(p, was.rows, run[i + 1..], w));
  }

  lemma {:induction false} WrittenAll(p: Params, was: Db, run: seq<Header>, work: nat, running: nat, reached: Db)
    requires Written(p, was, run, work, |run|, running, reached)
    ensures reached == Run(was, BulkStmts(p, was.rows, run, work))
  {
    assert run[|run|..] == [];
    assert Run(reached, []) == reached;
  }

  /** What the bulk loop has committed: all but the batches of what is left. */
  ghost predicate Batching(p: Params, t: seq<Row>, run: seq<Header>, work: nat, i: nat, running: nat, held: seq<Stmt>,
                           before: seq<seq<Stmt>>, committed: seq<seq<Stmt>>)
    requires i <= |run| && |held| <= CHUNK
  {
    before + Batched(p, t, run, work, []) == committed + Batched(p, t, run[i..], running, held)
  }

  lemma {:induction false} BatchingNext(p: Params, t: seq<Row>, run: seq<Header>, work: nat, i: nat, running: nat, held: seq<Stmt>,
                                        before: seq<seq<Stmt>>, committed: seq<seq<Stmt>>)
    requires i < |run| && |held| <= CHUNK && Batching(p, t, run, work, i, running, held, before, committed)
    ensures var w := running + p.work(run[i].bits);
            var stmts := FirstOfBulk(t, run[i], w);
            && |stmts| <= CHUNK
            && if CHUNK < |held| + |stmts| then Batching(p, t, run, work, i + 1, w, stmts, before, committed + [held])
               else Batching(p, t, run, work, i + 1, w, held + stmts, before, committed)
  {
    BatchedNext(p, t, run[i..], running, held);
    hide Batched, FirstOfBulk;
    var w := running + p.work(run[i].bits);
    assert run[i..][0] == run[i] && run[i..][1..] == run[i + 1..];
    assert committed + ([held] + Batched(p, t, run[i + 1..], w, FirstOfBulk(t, run[i], w)))
        == committed + [held] + Batched(p, t, run[i + 1..], w, FirstOfBulk(t, run[i], w));
  }

  lemma {:induction false} BatchingDone(p: Params, t: seq<Row>, run: seq<Header>, work: nat, running: nat, held: seq<Stmt>,
                                        before: seq<seq<Stmt>>, committed: seq<seq<Stmt>>)
    requires |held| <= CHUNK && Batching(p, t, run, work, |run|, running, held, before, committed)
    ensures committed + Chunks(held) == before + Batched(p, t, run, work, [])
  {
    BatchedNone(p, t, running, held);
    hide Batched;
    assert run[|run|..] == [];
    if held != [] { OneChunk(held); }
  }

  /** Room for `n` more statements: a batch they would not fit is executed first. */
  method MakeRoom(store: HeaderStore, batch: BatchCollector, n: nat) returns (next: BatchCollector)
    requires n <= CHUNK && |batch.statements| <= CHUNK && 0 < n
    modifies store, batch
    ensures next == batch || fresh(next)
    ensures Run(store.Contents(), next.statements) == old(Run(store.Contents(), batch.statements))
    ensures store.validation == old(store.validation)
    ensures next.statements == if CHUNK < old(|batch.statements|) + n then [] else old(batch.statements)
    ensures store.committed == old(store.committed) + if CHUNK < old(|batch.statements|) + n then [old(batch.statements)] else []
  {
    next := batch;
    if |batch.statements| + n > CHUNK {
      RunNone(Run(store.Contents(), batch.statements));
      OneChunk(batch.statements);
      batch.Execute(store);
      next := new BatchCollector();
    } else {
      assert store.committed + [] == store.committed;
    }
  }

  /** The bulk rows in batches of at most a hundred statements, no header split
      over two, the cumulative work carried along (src/storage.rs:1212-1286). */
  method WriteRun(store: HeaderStore, p: Params, run: seq<Header>, work: nat)
    modifies store
    ensures store.Contents() == Run(old(store.Contents()), BulkStmts(p, old(store.rows), run, work))
    ensures store.committed == old(store.committed) + Batched(p, old(store.rows), run, work, [])
    ensures store.validation == old(store.validation)
  {
    hide Run, BulkStmts, Written, HeldInactive, Chunks, Batched, Batching;
    ghost var was := store.Contents();
    var stored := store.rows;
    var running: nat := work;
    var batch := new BatchCollector();
    var i := 0;
    WrittenStart(p, was, run, work);
    BatchingStart(p, was.rows, run, work, store.committed);
    while i < |run|
      invariant 0 <= i <= |run| && fresh(batch) && |batch.statements| <= CHUNK
      invariant Written(p, was, run, work, i, running, Run(store.Contents(), batch.statements))
      invariant Batching(p, was.rows, run, work, i, running, batch.statements, old(store.committed), store.committed)
      invariant store.validation == old(store.validation)
    {
      var next: nat := running + p.work(run[i].bits);
      var stmts := FirstOfBulk(stored, run[i], next);
      FirstShort(stored, run[i], next);
      BatchingNext(p, was.rows, run, work, i, running, batch.statements, old(store.committed), store.committed);
      ghost var held, sofar := batch.statements, store.committed;
      batch := MakeRoom(store, batch, |stmts|);
      WrittenNext(p, was, run, work, i, running, store.Contents(), batch.statements);
      assert [] + stmts == stmts && sofar + [] == sofar;
      batch.AddAll(stmts);
      running, i := next, i + 1;
    }
    WrittenAll(p, was, run, work, running, Run(store.Contents(), batch.statements));
    BatchingDone(p, was.rows, run, work, running, batch.statements, old(store.committed), store.committed);
    batch.Execute(store);
  }

  lemma {:induction false} FirstShort(t: seq<Row>, h: Header, work: nat)
    ensures 1 <= |FirstOfBulk(t, h, work)| <= 2
  {
  }

  lemma {:induction false} BatchingStart(p: Params, t: seq<Row>, run: seq<Header>, work: nat, committed: seq<seq<Stmt>>)
    ensures Batching(p, t, run, work, 0, work, [], committed, committed)
  {
    assert run[0..] == run;
  }

  // ── The live path of a run ───────────────────────────────────────────────

  ghost predicate Known(all: iset<Header>, db: Db, run: seq<Header>) {
    Agree(all) && AllIn(all, run) && Sound(Heads(db.rows)) && AllIn(all, Heads(db.rows))
  }

  lemma {:induction false} EachOne(all: iset<Header>, p: Params, db: Db, run: seq<Header>)
    requires Known(all, db, run) && run != []
    ensures Admissible(Heads(db.rows), run[0])
    ensures var out := Live.InsertHeader(p, db, run[0]);
            var db1 := RunAll(db, out.txs);
            && Known(all, db1, run[1..])
            && EachTxs(all, p, db, run) == out.txs + (if Failed(out.result) then [] else EachTxs(all, p, db1, run[1..]))
            && InsertEach(all, p, db, run) ==
                 if Failed(out.result) then (db1, out.result) else InsertEach(all, p, db1, run[1..])
  {
    hide Sound, RunAll, Live.InsertHeader, Admissible, Heads, EachTxs, InsertEach;
    EachTxsStep(all, p, db, run);
  }

  lemma {:induction false} TxsShift(a: seq<seq<Stmt>>, b: seq<seq<Stmt>>, c: seq<seq<Stmt>>)
    ensures a + (b + c) == a + b + c
  {
  }

  lemma {:induction false} EachNone(all: iset<Header>, p: Params, db: Db)
    requires Known(all, db, [])
    ensures InsertEach(all, p, db, []) == (db, Added(false, 0)) && EachTxs(all, p, db, []) == []
  {
  }

  /** The headers of a run inserted one at a time, up to the first error
      (src/storage.rs:1185-1189). */
  method InsertOneByOne(store: HeaderStore, ghost all: iset<Header>, p: Params, run: seq<Header>) returns (r: Result)
    requires store.Sane() && Known(all, store.Contents(), run)
    modifies store
    ensures store.Sane() && store.validation == old(store.validation)
    ensures (store.Contents(), r) == old(InsertEach(all, p, store.Contents(), run))
    ensures store.committed == old(store.committed) + old(EachTxs(all, p, store.Contents(), run))
  {
    ghost var was := store.Contents();
    var i := 0;
    assert run[0..] == run;
    while i < |run|
      invariant 0 <= i <= |run| && store.Sane() && store.validation == old(store.validation)
      invariant Known(all, was, run) && Known(all, store.Contents(), run[i..])
      invariant InsertEach(all, p, was, run) == InsertEach(all, p, store.Contents(), run[i..])
      invariant old(store.committed) + EachTxs(all, p, was, run) == store.committed + EachTxs(all, p, store.Contents(), run[i..])
    {
      ghost var rest := run[i..];
      assert rest[0] == run[i] && rest[1..] == run[i + 1..];
      ghost var before := store.Contents();
      EachOne(all, p, before, rest);
      ghost var held := store.committed;
      hide Sound, LinksTrue, RunAll, Live.InsertHeader, InsertEach, EachTxs, Known, Admissible;
      r := store.InsertHeader(p, run[i]);
      ghost var txs := Live.InsertHeader(p, before, run[i]).txs;
      assert store.Contents() == RunAll(before, txs) && store.committed == held + txs;
      if Failed(r) {
        assert txs + [] == txs;
        return;
      }
      TxsShift(held, txs, EachTxs(all, p, store.Contents(), rest[1..]));
      i := i + 1;
    }
    assert run[|run|..] == [];
    EachNone(all, p, store.Contents());
    assert store.committed + [] == store.committed;
    r := Added(false, 0);
  }

  /** A run that is refused, whatever heights its headers claim. */
  ghost predicate Turned(p: Params, t: seq<Row>, run: seq<Header>)
    requires Sound(Heads(t))
  {
    run != [] && JudgeRun(p, t, run).Some?
  }

  /** `insert_headers_batch` (src/storage.rs:1034-1289): judged whole, then the
      live path if the run competes, else the bulk rows. */
  method InsertHeadersBatch(store: HeaderStore, ghost all: iset<Header>, p: Params, run: seq<Header>) returns (r: Result)
    requires store.Sane() && (Known(all, store.Contents(), run) || Turned(p, store.rows, run))
    modifies store
    ensures store.validation == old(store.validation)
    ensures old(Known(all, store.Contents(), run)) ==>
              && (store.Contents(), r) == old(Bulk.InsertHeadersBatch(all, p, store.Contents(), run))
              && store.committed == old(store.committed) + old(BatchTxs(all, p, store.Contents(), run))
    ensures old(Turned(p, store.rows, run)) ==>
              && store.Contents() == old(store.Contents()) && store.committed == old(store.committed)
              && r == Refused(old(JudgeRun(p, store.rows, run)).value)
  {
    assert store.committed + [] == store.committed;
    if run == [] { return Added(false, 0); }
    hide Sound, LinksTrue, JudgeRun, Competes, InsertEach, EachTxs, Run, BulkStmts, Batched;
    var fault := JudgeBatch(store, p, run);
    if fault.Some? { return Refused(fault.value); }
    if Competes(store.rows, run) {
      r := InsertOneByOne(store, all, p, run);
      return;
    }
    WriteRun(store, p, run, RunWork(store.rows, run));
    r := Added(false, 0);
  }

  // ── The push ─────────────────────────────────────────────────────────────

  /** The header's row is the only active row at its height
      (src/storage.rs:1519-1525). */
  method SoleAt(t: seq<Row>, h: Header) returns (sole: bool)
    ensures sole <==> SoleActive(t, h)
  {
    var found := false;
    var i := 0;
    while i < |t|
      invariant 0 <= i <= |t|
      invariant forall k: nat :: k < i && ActiveAt(t, k, h.height) ==> t[k].h.hash == h.hash
      invariant found <==> exists k :: 0 <= k < i && t[k].active && t[k].h == h
    {
      if ActiveAt(t, i, h.height) && t[i].h.hash != h.hash { return false; }
      if t[i].active && t[i].h == h { found := true; }
      i := i + 1;
    }
    sole := found;
  }

  method AllSoleIn(t: seq<Row>, run: seq<Header>) returns (sole: bool)
    ensures sole <==> AllSole(t, run)
  {
    hide SoleActive;
    var j := 0;
    while j < |run|
      invariant 0 <= j <= |run|
      invariant forall k :: 0 <= k < j ==> SoleActive(t, run[k])
    {
      sole := SoleAt(t, run[j]);
      if !sole { return; }
      j := j + 1;
    }
    sole := true;
  }

  /** The active row at the next height that names the last header
      (src/storage.rs:1542-1545). */
  method ChildAbove(t: seq<Row>, last: Header) returns (c: Option<nat>)
    ensures c == ChildOf(t, last)
  {
    var i := 0;
    while i < |t|
      invariant 0 <= i <= |t|
      invariant forall k: nat :: k < i ==> !IsChild(t, last, k)
    {
      if ActiveAt(t, i, last.height + 1) && t[i].h.prev == last.hash {
        FirstChild(t, last, i);
        return Some(i);
      }
      i := i + 1;
    }
    c := None;
  }

  lemma {:induction false} FirstChild(t: seq<Row>, last: Header, i: nat)
    requires IsChild(t, last, i) && forall k: nat :: k < i ==> !IsChild(t, last, k)
    ensures ChildOf(t, last) == Some(i)
  {
    hide IsChild;
    assert exists c: nat :: IsChild(t, last, c) && forall d: nat :: d < c ==> !IsChild(t, last, d);
  }

  /** The lowest height another active row stands at inside the run
      (src/storage.rs:1515-1518, 1587). */
  method LowestRivalHeight(t: seq<Row>, run: seq<Header>) returns (lowest: Option<nat>)
    requires run != []
    ensures PendingOf(t, run) == if lowest.Some? then [RecordPending(lowest.value)] else []
  {
    lowest := None;
    var i := 0;
    while i < |t|
      invariant 0 <= i <= |t|
      invariant lowest.None? ==> forall k: nat :: k < i ==> !Rival(t, run, k)
      invariant lowest.Some? ==> exists k: nat :: k < i && Rival(t, run, k) && t[k].h.height == lowest.value
      invariant lowest.Some? ==> forall k: nat :: k < i && Rival(t, run, k) ==> lowest.value <= t[k].h.height
    {
      if t[i].active && run[0].height <= t[i].h.height <= run[|run| - 1].height
         && forall j :: 0 <= j < |run| ==> run[j].hash != t[i].h.hash {
        assert Rival(t, run, i);
        if lowest.None? || t[i].h.height < lowest.value { lowest := Some(t[i].h.height); }
      }
      i := i + 1;
    }
    PendingIs(t, run, lowest);
  }

  lemma {:induction false} PendingIs(t: seq<Row>, run: seq<Header>, lowest: Option<nat>)
    requires run != []
    requires lowest.None? ==> forall k: nat :: k < |t| ==> !Rival(t, run, k)
    requires lowest.Some? ==> exists k: nat :: k < |t| && Rival(t, run, k) && t[k].h.height == lowest.value
    requires lowest.Some? ==> forall k: nat :: k < |t| && Rival(t, run, k) ==> lowest.value <= t[k].h.height
    ensures PendingOf(t, run) == if lowest.Some? then [RecordPending(lowest.value)] else []
  {
    assert forall k: nat :: Rival(t, run, k) ==> k < |t|;
    hide Rival;
    if lowest.Some? { assert LowestRival(t, run, lowest.value); }
  }

  /** `update_chain_tip_to_highest` (src/storage.rs:723-742). */
  method UpdateChainTipToHighest(store: HeaderStore)
    modifies store
    ensures store.Contents() == old(TipToHighest(store.Contents())) && store.validation == old(store.validation)
    ensures store.committed == old(store.committed) + old(TipTxs(store.Contents()))
  {
    hide Run, Chunks;
    assert store.committed + [] == store.committed;
    var highest := HighestActive(store.rows);
    if highest.Some? {
      var batch := new BatchCollector();
      batch.Add(ClearChainTip);
      batch.Add(SetChainTip(store.rows[highest.value].h.hash));
      assert batch.statements == [ClearChainTip, SetChainTip(store.rows[highest.value].h.hash)];
      OneChunk(batch.statements);
      batch.Execute(store);
    }
  }

  /** The statements of an activation (src/storage.rs:1570-1589). */
  method CollectActivation(t: seq<Row>, run: seq<Header>, c: nat) returns (batch: BatchCollector)
    requires run != [] && c < |t|
    ensures fresh(batch) && batch.statements == ActivationBatch(t, run, c)
  {
    batch := new BatchCollector();
    var j := 0;
    while j < |run|
      invariant 0 <= j <= |run| && fresh(batch)
      invariant batch.statements == Canonicalizations(run)[..j]
    {
      batch.Add(CanonicalizeHeight(run[j].hash, run[j].height));
      assert Canonicalizations(run)[..j + 1] == Canonicalizations(run)[..j] + [Canonicalizations(run)[j]];
      j := j + 1;
    }
    assert Canonicalizations(run)[..|run|] == Canonicalizations(run);
    batch.Add(LinkChild(run[|run| - 1].hash, t[c].h.hash));
    var lowest := LowestRivalHeight(t, run);
    ActivationStmts(t, run, c, lowest);
    if lowest.Some? { batch.Add(RecordPending(lowest.value)); }
  }

  lemma {:induction false} ActivationStmts(t: seq<Row>, run: seq<Header>, c: nat, lowest: Option<nat>)
    requires run != [] && c < |t|
    requires PendingOf(t, run) == if lowest.Some? then [RecordPending(lowest.value)] else []
    ensures var stmts := Canonicalizations(run) + [LinkChild(run[|run| - 1].hash, t[c].h.hash)];
            ActivationBatch(t, run, c) == if lowest.Some? then stmts + [RecordPending(lowest.value)] else stmts
  {
    hide PendingOf, Canonicalizations;
  }

  /** The pushed rows and the child above linked, and the tip set
      (src/storage.rs:1527-1537). */
  method LinkAndTip(store: HeaderStore, lo: nat, hi: nat)
    modifies store
    ensures store.Contents() == TipToHighest(Run(old(store.Contents()), [LinkSpan(lo, hi)]))
    ensures store.committed == old(store.committed) + ([[LinkSpan(lo, hi)]] + TipTxs(Run(old(store.Contents()), [LinkSpan(lo, hi)])))
    ensures store.validation == old(store.validation)
  {
    hide Run, TipToHighest, TipTxs;
    ghost var linked := Run(store.Contents(), [LinkSpan(lo, hi)]);
    TxsShift(store.committed, [[LinkSpan(lo, hi)]], TipTxs(linked));
    store.Batch([LinkSpan(lo, hi)]);
    UpdateChainTipToHighest(store);
  }

  /** What the stored chain decides of a push. */
  datatype Decision = ServeRun | KeepInactive | ActivateUnder(child: nat)

  ghost function Decided(t: seq<Row>, run: seq<Header>): (d: Decision)
    requires run != []
    ensures d.ActivateUnder? ==> d.child < |t|
  {
    var parent := Find(Heads(t), run[0].prev);
    if AllSole(t, run) then ServeRun
    else if ChildOf(t, run[|run| - 1]).None? then KeepInactive
    else if 0 < run[0].height && parent.Some? && !t[parent.value].active then KeepInactive
    else if MAX_ACTIVATION < |run| then KeepInactive
    else ActivateUnder(ChildOf(t, run[|run| - 1]).value)
  }

  lemma {:induction false} DecidesThePush(db: Db, run: seq<Header>)
    requires run != []
    ensures Push.CanonicalizePushed(db, run) == match Decided(db.rows, run)
      case ServeRun => (TipToHighest(Run(db, [LinkSpan(run[0].height, run[|run| - 1].height + 1)])), Served)
      case KeepInactive => (db, StoredInactive)
      case ActivateUnder(c) => (Run(db, ActivationBatch(db.rows, run, c)), Activated)
    ensures CanonicalTxs(db, run) == match Decided(db.rows, run)
      case ServeRun => var link := [LinkSpan(run[0].height, run[|run| - 1].height + 1)]; [link] + TipTxs(Run(db, link))
      case KeepInactive => []
      case ActivateUnder(c) => [ActivationBatch(db.rows, run, c)]
  {
    hide AllSole, ChildOf, Run, ActivationBatch, TipToHighest, TipTxs, Heads;
  }

  /** The decision (src/storage.rs:1519-1568). */
  method Decide(t: seq<Row>, run: seq<Header>) returns (d: Decision)
    requires run != []
    ensures d == Decided(t, run)
  {
    hide AllSole, ChildOf;
    var sole := AllSoleIn(t, run);
    if sole { return ServeRun; }
    var child := ChildAbove(t, run[|run| - 1]);
    if child.None? { return KeepInactive; }
    if 0 < run[0].height {
      var parent := Find(Heads(t), run[0].prev);
      if parent.Some? && !t[parent.value].active { return KeepInactive; }
    }
    if |run| > MAX_ACTIVATION { return KeepInactive; }
    d := ActivateUnder(child.value);
  }

  /** `canonicalize_pushed` (src/storage.rs:1493-1597). */
  method CanonicalizePushed(store: HeaderStore, run: seq<Header>) returns (verdict: Verdict)
    modifies store
    ensures (store.Contents(), verdict) == old(Push.CanonicalizePushed(store.Contents(), run))
    ensures store.committed == old(store.committed) + old(CanonicalTxs(store.Contents(), run))
    ensures verdict == Activated ==> |store.committed| == |old(store.committed)| + 1
    ensures store.validation == old(store.validation)
  {
    assert store.committed + [] == store.committed;
    if run == [] { return Served; }
    DecidesThePush(store.Contents(), run);
    hide *;
    var d := Decide(store.rows, run);
    match d {
      case ServeRun =>
        LinkAndTip(store, run[0].height, run[|run| - 1].height + 1);
        verdict := Served;
      case KeepInactive =>
        verdict := StoredInactive;
      case ActivateUnder(c) =>
        var batch := CollectActivation(store.rows, run, c);
        batch.ExecuteAtomic(store);
        verdict := Activated;
    }
  }

  /** `ingest_pushed` (src/storage.rs:1480-1491). */
  method IngestPushed(store: HeaderStore, ghost all: iset<Header>, p: Params, run: seq<Header>) returns (verdict: Option<Verdict>)
    requires store.Sane() && (Known(all, store.Contents(), run) || Turned(p, store.rows, run))
    modifies store
    ensures old(Known(all, store.Contents(), run)) ==>
              && (store.Contents(), verdict) == old(Push.IngestPushed(all, p, store.Contents(), run))
              && store.committed == old(store.committed) + old(PushTxs(all, p, store.Contents(), run))
    ensures old(Turned(p, store.rows, run)) ==>
              store.Contents() == old(store.Contents()) && store.committed == old(store.committed) && verdict == None
    ensures store.validation == old(store.validation)
  {
    hide Sound, LinksTrue, Bulk.InsertHeadersBatch, Push.CanonicalizePushed, BatchTxs, CanonicalTxs, JudgeRun;
    ghost var before := store.committed;
    ghost var known := Known(all, store.Contents(), run);
    ghost var txs := if known then BatchTxs(all, p, store.Contents(), run) else [];
    var result := InsertHeadersBatch(store, all, p, run);
    assert txs + [] == txs;
    if Failed(result) { return None; }
    TxsShift(before, txs, CanonicalTxs(store.Contents(), run));
    var out := CanonicalizePushed(store, run);
    verdict := Some(out);
  }
}
