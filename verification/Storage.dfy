/** The header store as src/storage.rs writes it: the table updated in place by
    statements, the walks as loops, each proved against its specification. */
module Storage {
  import opened Wrappers
  import opened Headers
  import opened HeaderTable
  import opened Ancestor
  import opened CleanStore
  import opened Live
  import opened Revalidate

  class HeaderStore {
    var rows: seq<Row>
    var pending: Option<nat>
    var validation: Validation
    /** The transactions committed, in order. */
    ghost var committed: seq<seq<Stmt>>

    function Contents(): Db
      reads this
    {
      Db(rows, pending)
    }

    ghost predicate Sane()
      reads this
    {
      Sound(Heads(rows)) && LinksTrue(rows)
    }

    constructor ()
      ensures Contents() == EMPTY && committed == [] && validation == UNVALIDATED
    {
      rows, pending, committed := [], None, [];
      validation := UNVALIDATED;
    }

    /** One statement, row by row. */
    method Execute(s: Stmt)
      modifies this`rows, this`pending
      ensures Contents() == Exec(old(Contents()), s)
    {
      match s {
        case Insert(row) =>
          if Find(Heads(rows), row.h.hash).None? { rows := rows + [row]; }
        case RecordPending(fork) =>
          if pending.None? || fork < pending.value { pending := Some(fork); }
        case ClearPending(fork) =>
          if pending == Some(fork) { pending := None; }
        case _ =>
          UpdateRows(s);
      }
    }

    /** An UPDATE: each row reads the table as it was. */
    method UpdateRows(s: Stmt)
      requires !s.Insert? && !s.RecordPending? && !s.ClearPending?
      modifies this`rows
      ensures Contents() == Exec(old(Contents()), s)
    {
      var was := rows;
      var i := 0;
      while i < |was|
        invariant 0 <= i <= |was| == |rows|
        invariant forall j :: 0 <= j < i ==> rows[j] == Touch(s, was, j)
        invariant forall j :: i <= j < |was| ==> rows[j] == was[j]
      {
        rows := rows[i := Touch(s, was, i)];
        i := i + 1;
      }
      UpdatedRows(Db(was, pending), s, rows);
    }

    /** One D1 batch: one transaction (src/d1.rs:175-182). */
    method Batch(stmts: seq<Stmt>)
      modifies this`rows, this`pending, this`committed
      ensures Contents() == Run(old(Contents()), stmts)
      ensures committed == old(committed) + [stmts]
    {
      var i := 0;
      while i < |stmts|
        invariant 0 <= i <= |stmts|
        invariant Run(old(Contents()), stmts) == Run(Contents(), stmts[i..])
        invariant committed == old(committed)
      {
        assert stmts[i..][1..] == stmts[i + 1..];
        Execute(stmts[i]);
        i := i + 1;
      }
      committed := committed + [stmts];
    }

    // ── The walk back ──────────────────────────────────────────────────────

    /** `walk_back` (src/storage.rs:785-805): the row the link names, else the row
        with the parent's hash. */
    method WalkBack(i: nat) returns (r: Option<nat>)
      requires Sane() && i < |rows|
      ensures r == Parent(Heads(rows), i)
    {
      if rows[i].link.Some? && rows[i].link.value < |rows| {
        LinkIsParent(rows, i);
        return rows[i].link;
      }
      if rows[i].h.prev != ZERO_HASH {
        r := Find(Heads(rows), rows[i].h.prev);
        return;
      }
      r := None;
    }

    /** `find_common_ancestor` (src/storage.rs:748-782): two pointers, the higher
        one walked back, both when level, at most 400 steps. */
    method FindCommonAncestor(first: nat, second: nat) returns (r: Option<nat>)
      requires Sane() && first < |rows| && second < |rows|
      ensures r == CommonAncestor(Heads(rows), first, second)
    {
      var a: Option<nat>, b: Option<nat> := Some(first), Some(second);
      var steps := 0;
      StartTogether(Heads(rows), first, second);
      while a.Some? && b.Some?
        invariant steps <= REORG_LIMIT
        invariant a.Some? && b.Some? ==> Together(Heads(rows), first, second, a.value, b.value, steps)
        invariant a.None? || b.None? ==> Apart(Heads(rows), first, second)
        decreases if a.Some? then 1 else 0, if b.Some? then 1 else 0, REORG_LIMIT - steps
      {
        if a == b {
          MetAt(Heads(rows), first, second, a.value, steps);
          return a;
        }
        if steps >= REORG_LIMIT {
          GoneTooFar(Heads(rows), first, second, a.value, b.value);
          return None;
        }
        TogetherIn(Heads(rows), first, second, a.value, b.value, steps);
        StepTogether(Heads(rows), first, second, a.value, b.value, steps);
        steps := steps + 1;
        var up, across := rows[a.value].h.height, rows[b.value].h.height;
        if up > across {
          a := WalkBack(a.value);
        } else if up < across {
          b := WalkBack(b.value);
        } else {
          a := WalkBack(a.value);
          b := WalkBack(b.value);
        }
      }
      ApartNone(Heads(rows), first, second);
      r := None;
    }

    // ── Reorgs ─────────────────────────────────────────────────────────────

    /** `SQL_COUNT_ACTIVE_ABOVE`. */
    method CountAbove(floor: nat) returns (n: nat)
      ensures n == CountActiveAbove(rows, floor)
    {
      n := 0;
      var i := 0;
      assert CountActiveAbove(rows[..0], floor) == 0 by { NoneAbove(rows, floor); }
      while i < |rows|
        invariant 0 <= i <= |rows|
        invariant n == CountActiveAbove(rows[..i], floor)
      {
        OneMoreAbove(rows, floor, i);
        if rows[i].active && floor < rows[i].h.height { n := n + 1; }
        i := i + 1;
      }
      assert rows[..|rows|] == rows;
    }

    /** The hashes of the new branch, walked back from row `n` down to the
        ancestor's height (src/storage.rs:843-851), each activated. */
    method Branched(n: nat, floor: nat) returns (r: seq<Stmt>)
      requires Sane() && n < |rows|
      ensures r == Activations(Heads(rows), Branch(Heads(rows), n, floor))
    {
      r := [];
      var current: Option<nat> := Some(n);
      ghost var k := 0;
      BranchStart(Heads(rows), n);
      while current.Some? && floor < rows[current.value].h.height
        invariant k <= |Path(Heads(rows), n)|
        invariant current == if k < |Path(Heads(rows), n)| then Some(Path(Heads(rows), n)[k]) else None
        invariant BranchSoFar(Heads(rows), n, floor, k, r)
        decreases |Path(Heads(rows), n)| - k
      {
        BranchNext(Heads(rows), n, floor, k, r);
        r := r + [Activate(rows[current.value].h.hash)];
        current := WalkBack(current.value);
        k := k + 1;
      }
      BranchDone(Heads(rows), n, floor, k, r);
    }

    /** `handle_reorg` (src/storage.rs:814-893): no ancestor, nothing changes;
        otherwise one transaction, and the rows it deactivates counted. */
    method HandleReorg(n: nat, tip: nat) returns (deactivated: Option<nat>)
      requires Sane() && n < |rows| && tip < |rows|
      modifies this
      ensures Sane()
      ensures validation == old(validation)
      ensures match old(CommonAncestor(Heads(rows), n, tip))
              case None => deactivated == None && Contents() == old(Contents()) && committed == old(committed)
              case Some(c) =>
                && Contents() == Run(old(Contents()), old(ReorgBatch(Heads(rows), n, c)))
                && committed == old(committed) + [old(ReorgBatch(Heads(rows), n, c))]
                && deactivated == Some(old(CountActiveAbove(rows, rows[c].h.height)))
    {
      var ancestor := FindCommonAncestor(n, tip);
      if ancestor.None? { return None; }
      var floor := rows[ancestor.value].h.height;
      var count := CountAbove(floor);
      var batch := CollectReorg(n, ancestor.value);
      ReorgFlagStmts(Heads(rows), n, ancestor.value);
      FlagsSane(Contents(), batch.statements);
      batch.ExecuteAtomic(this);
      deactivated := Some(count);
    }

    /** The statements of a reorg (src/storage.rs:864-887). */
    method CollectReorg(n: nat, c: nat) returns (batch: BatchCollector)
      requires Sane() && n < |rows| && c < |rows|
      ensures fresh(batch) && batch.statements == ReorgBatch(Heads(rows), n, c)
    {
      hide Sound, Path, Branch, Activations, LinksTrue, ReorgBatch, Heads;
      HeadAt(rows, n);
      HeadAt(rows, c);
      var floor := rows[c].h.height;
      var branch := Branched(n, floor);
      batch := new BatchCollector();
      batch.Add(DeactivateAbove(floor));
      batch.AddAll(branch);
      batch.Add(RecordPending(floor + 1));
      batch.Add(ClearChainTip);
      batch.Add(SetChainTipActive(rows[n].h.hash));
      ReorgStmts(Heads(rows), n, c, branch, batch.statements);
    }

    /** `update_chain_tip`: clear and set in one batch. */
    method UpdateChainTip(hash: Hash)
      modifies this
      ensures old(Sane()) ==> Sane()
      ensures Contents() == Run(old(Contents()), TipMove(hash))
      ensures committed == old(committed) + [TipMove(hash)]
      ensures validation == old(validation)
    {
      var batch := new BatchCollector();
      batch.Add(ClearChainTip);
      batch.Add(SetChainTipActive(hash));
      assert batch.statements == TipMove(hash);
      OneChunk(TipMove(hash));
      if Sane() { FlagsSane(Contents(), TipMove(hash)); }
      batch.Execute(this);
    }

    /** The tip moved to row `n` through the reorg walk, and set once more when
        nothing was deactivated (src/storage.rs:689-703, 953-965). */
    method MoveTip(n: nat, tip: nat) returns (r: Result)
      requires Sane() && n < |rows| && tip < |rows|
      modifies this
      ensures Sane()
      ensures validation == old(validation)
      ensures Performed(old(Contents()), old(committed), old(ReorgTo(Contents(), n, tip)), Contents(), committed, r)
    {
      ghost var was := Contents();
      ghost var txs := committed;
      hide Sound, Path, ReorgBatch, Run, LinksTrue, TipMove, Branch, Performed;
      var hash := rows[n].h.hash;
      var depth := HandleReorg(n, tip);
      if depth.None? {
        PerformedNone(was, txs, NoAncestor);
        return NoAncestor;
      }
      r := Added(true, depth.value);
      ghost var tx := ReorgBatch(Heads(was.rows), n, CommonAncestor(Heads(was.rows), n, tip).value);
      MovedShape(tx, TipMove(hash));
      PerformedOne(was, txs, tx, r);
      PerformedTwo(was, txs, tx, TipMove(hash), r);
      if depth.value == 0 {
        UpdateChainTip(hash);
      }
    }

    // ── The window ─────────────────────────────────────────────────────────

    /** The active row one below that row `i` names, among the active rows of
        that height. */
    method ActiveParent(i: nat) returns (r: Option<nat>)
      requires Sane() && i < |rows| && 0 < rows[i].h.height
      ensures r == ActiveParentOf(rows, i)
    {
      var j := 0;
      while j < |rows|
        invariant 0 <= j <= |rows|
        invariant forall k: nat :: k < j && ActiveAt(rows, k, rows[i].h.height - 1) ==> rows[k].h.hash != rows[i].h.prev
      {
        if ActiveAt(rows, j, rows[i].h.height - 1) && rows[j].h.hash == rows[i].h.prev {
          ActiveParentFound(rows, i, j);
          return Some(j);
        }
        j := j + 1;
      }
      ActiveParentNone(rows, i);
      r := None;
    }

    /** `load_window` (src/storage.rs:1925-1971). */
    method CollectWindow(i: nat, depth: nat) returns (links: seq<Link>)
      requires Sane() && i < |rows|
      ensures links == LoadWindow(rows, i, depth)
    {
      var chain := CollectChain(i, depth);
      links := Links(Heads(rows), chain);
    }

    /** Its rows: back by hash off the active chain, then down the active rows. */
    method CollectChain(i: nat, depth: nat) returns (chain: seq<nat>)
      requires Sane() && i < |rows|
      ensures chain == Reach(rows, i, depth)
    {
      hide Sound, LinksTrue, Path, Reach, Heads;
      var cur: nat := i;
      chain := [i];
      WindowStart(rows, i, depth);
      while |chain| < depth && !rows[cur].active && 0 < rows[cur].h.height
        invariant cur < |rows| && 0 < |chain| <= Max(1, depth)
        invariant WindowSoFar(rows, i, depth, chain, cur)
        decreases rows[cur].h.height
      {
        WindowNext(rows, i, depth, chain, cur);
        var parent := WalkBack(cur);
        if parent.None? || rows[parent.value].h.height + 1 != rows[cur].h.height { break; }
        chain, cur := chain + [parent.value], parent.value;
      }
      if |chain| < depth && rows[cur].active && 0 < rows[cur].h.height {
        while |chain| < depth && 0 < rows[cur].h.height
          invariant cur < |rows| && 0 < |chain| <= depth && rows[cur].active
          invariant WindowSoFar(rows, i, depth, chain, cur)
          decreases rows[cur].h.height
        {
          WindowNext(rows, i, depth, chain, cur);
          var parent := ActiveParent(cur);
          if parent.None? { break; }
          chain, cur := chain + [parent.value], parent.value;
        }
      }
      WindowDone(rows, i, depth, chain, cur);
    }

    // ── The live writes ────────────────────────────────────────────────────

    /** The rules in the node's order (src/storage.rs:601-630). */
    method JudgeHeader(p: Params, h: Header) returns (fault: Option<Fault>, anchored: bool)
      requires Sane()
      ensures (fault, anchored) == Live.Judge(p, rows, h)
    {
      hide Sound, LinksTrue, Path, LoadWindow, CheckContext;
      var parent := ParentOf(Heads(rows), h);
      var tip := ChainTip(rows);
      if parent.Some? && h.height != rows[parent.value].h.height + 1 { return Some(BadPrev), false; }
      var checkpoint := StoredCheckpointAbove(p, rows, h.height, tip);
      if checkpoint.Some? { return Some(ForkPriorToCheckpoint(checkpoint.value)), false; }
      if parent.Some? {
        var window := CollectWindow(parent.value, p.depth(rows[parent.value].h.height));
        return CheckContext(p, window, h), true;
      }
      var verdict := p.CheckUnlinked(h, tip.None?);
      fault, anchored := verdict.0, verdict.1;
    }

    /** `insert_header` (src/storage.rs:554-706). */
    method InsertHeader(p: Params, h: Header) returns (r: Result)
      requires Sane() && (Admissible(Heads(rows), h) || TurnedAway(Heads(rows), h))
      modifies this
      ensures Sane()
      ensures validation == old(validation)
      ensures old(Admissible(Heads(rows), h)) ==>
                Performed(old(Contents()), old(committed), old(Live.InsertHeader(p, Contents(), h)),
                          Contents(), committed, r)
      ensures old(TurnedAway(Heads(rows), h)) ==>
                Contents() == old(Contents()) && committed == old(committed) && r == old(TurnedWith(p, Heads(rows), h))
    {
      if TurnedAway(Heads(rows), h) { TurnedAwayFault(p, rows, h); }
      hide Sound, LinksTrue, Path, Judge, ReorgTo, Admissible, Fits, Run, NewRow, ParentOf;
      PerformedNone(Contents(), committed, Refused(HighHash));
      PerformedNone(Contents(), committed, Dupe);
      if !p.pow(h) { return Refused(HighHash); }
      if Find(Heads(rows), h.hash).Some? { return Dupe; }
      var fault, anchored := JudgeHeader(p, h);
      if fault.Some? {
        PerformedNone(Contents(), committed, Refused(fault.value));
        return Refused(fault.value);
      }
      r := InsertJudged(p, h, anchored);
    }

    /** The header stored, and the tip moved if it wins: an extension in one
        transaction, a winner elsewhere inactive first (src/storage.rs:632-703). */
    method InsertJudged(p: Params, h: Header, anchored: bool) returns (r: Result)
      requires Sane() && Admissible(Heads(rows), h)
      requires p.pow(h) && Find(Heads(rows), h.hash).None? && Judge(p, rows, h) == (None, anchored)
      modifies this
      ensures Sane()
      ensures validation == old(validation)
      ensures Performed(old(Contents()), old(committed), old(Live.InsertHeader(p, Contents(), h)),
                        Contents(), committed, r)
    {
      ghost var was := Contents();
      var tip := ChainTip(rows);
      InsertOutcome(p, was, h, anchored);
      hide *;
      if tip.None? || (anchored && rows[tip.value].work < NewRow(p, rows, h, false).work) {
        if tip.None? || h.prev == rows[tip.value].h.hash {
          Extend(NewRow(p, rows, h, true));
          r := Added(true, 0);
        } else {
          r := InsertAndMove(NewRow(p, rows, h, false), tip.value);
        }
      } else {
        InsertRow(NewRow(p, rows, h, false));
        r := Added(false, 0);
      }
    }

    method Extend(row: Row)
      requires Sane() && RowFits(rows, row)
      modifies this
      ensures Sane()
      ensures Performed(old(Contents()), old(committed), Outcome([Extension(row)], Added(true, 0)),
                        Contents(), committed, Added(true, 0))
      ensures validation == old(validation)
    {
      ExtensionStmts(row);
      ExtendedSane(Contents(), row);
      hide Run, Extension, RunAll, Performed, Sound, LinksTrue;
      PerformedOne(Contents(), committed, Extension(row), Added(true, 0));
      Batch([Insert(row), ClearChainTip, SetChainTipActive(row.h.hash)]);
    }

    method InsertRow(row: Row)
      requires Sane() && RowFits(rows, row)
      modifies this
      ensures Sane()
      ensures Performed(old(Contents()), old(committed), Outcome([[Insert(row)]], Added(false, 0)),
                        Contents(), committed, Added(false, 0))
      ensures Contents() == Run(old(Contents()), [Insert(row)]) && committed == old(committed) + [[Insert(row)]]
      ensures validation == old(validation)
    {
      InsertedSane(Contents(), row);
      hide Run, RunAll, Performed, Sound, LinksTrue;
      PerformedOne(Contents(), committed, [Insert(row)], Added(false, 0));
      Batch([Insert(row)]);
    }

    method InsertAndMove(row: Row, tip: nat) returns (r: Result)
      requires Sane() && tip < |rows| && RowFits(rows, row)
      requires Sound(Heads(Run(Contents(), [Insert(row)]).rows)) && |Run(Contents(), [Insert(row)]).rows| == |rows| + 1
      modifies this
      ensures Sane()
      ensures validation == old(validation)
      ensures Performed(old(Contents()), old(committed),
                        After([Insert(row)], old(ReorgTo(Run(Contents(), [Insert(row)]), |rows|, tip))),
                        Contents(), committed, r)
    {
      ghost var was := Contents();
      ghost var txs := committed;
      hide Sound, LinksTrue, Path, ReorgTo, Admissible, Fits, Run, Heads, RunAll, Performed, After, RowFits;
      InsertRow(row);
      ghost var inserted := Contents();
      r := MoveTip(|rows| - 1, tip);
      PerformedAfter(was, txs, [Insert(row)], ReorgTo(inserted, |was.rows|, tip), Contents(), committed, r);
    }

    /** `relink_orphan_and_reevaluate` (src/storage.rs:905-968). */
    method RelinkOrphan(p: Params, hash: Hash) returns (r: Result)
      requires Sane()
      modifies this
      ensures Sane()
      ensures validation == old(validation)
      ensures Performed(old(Contents()), old(committed), old(Live.RelinkOrphan(p, Contents(), hash)),
                        Contents(), committed, r)
    {
      hide Sound, LinksTrue, Path, ReorgTo, LoadWindow, CheckContext, Run;
      PerformedNone(Contents(), committed, NoRow);
      PerformedNone(Contents(), committed, NoPrev);
      PerformedNone(Contents(), committed, Refused(BadPrev));
      var stored := Find(Heads(rows), hash);
      if stored.None? { return NoRow; }
      var i := stored.value;
      var parent := Parent(Heads(rows), i);
      if parent.None? { return NoPrev; }
      var q := parent.value;
      if rows[i].h.height != rows[q].h.height + 1 { return Refused(BadPrev); }
      var window := CollectWindow(q, p.depth(rows[q].h.height));
      var fault := CheckContext(p, window, rows[i].h);
      if fault.Some? {
        PerformedNone(Contents(), committed, Refused(fault.value));
        return Refused(fault.value);
      }
      r := RelinkJudged(p, hash, i, q);
    }

    /** The orphan linked, and the tip weighed again (src/storage.rs:933-965). */
    method RelinkJudged(p: Params, hash: Hash, i: nat, q: nat) returns (r: Result)
      requires Sane() && i < |rows| && q < |rows| && rows[i].h.hash == hash && rows[i].h.prev == rows[q].h.hash
      requires Find(Heads(rows), hash) == Some(i) && Parent(Heads(rows), i) == Some(q)
      requires rows[i].h.height == rows[q].h.height + 1
      requires CheckContext(p, LoadWindow(rows, q, p.depth(rows[q].h.height)), rows[i].h).None?
      modifies this
      ensures Sane()
      ensures validation == old(validation)
      ensures Performed(old(Contents()), old(committed), old(Live.RelinkOrphan(p, Contents(), hash)),
                        Contents(), committed, r)
    {
      ghost var was := Contents();
      ghost var txs := committed;
      var tx := RelinkTx(p, rows, i, q);
      RelinkOutcome(p, was, hash, i, q);
      RelinkedSane(p, was, i, q);
      hide *;
      Batch(tx);
      ghost var linked := Contents();
      r := Weigh(i);
      PerformedAfter(was, txs, tx, Weighed(linked, i), Contents(), committed, r);
    }

    /** A linked row that outworks the tip becomes it. */
    method Weigh(i: nat) returns (r: Result)
      requires Sane() && i < |rows|
      modifies this
      ensures Sane()
      ensures validation == old(validation)
      ensures Performed(old(Contents()), old(committed), old(Weighed(Contents(), i)), Contents(), committed, r)
    {
      hide Sound, LinksTrue, Path, ReorgTo, Run, Heads, TipMove, RunAll, Performed;
      var tip := ChainTip(rows);
      var hash := rows[i].h.hash;
      if tip.Some? && rows[i].work <= rows[tip.value].work {
        PerformedNone(Contents(), committed, Added(false, 0));
        return Added(false, 0);
      }
      if tip.None? || rows[i].h.prev == rows[tip.value].h.hash {
        PerformedOne(Contents(), committed, TipMove(hash), Added(true, 0));
        UpdateChainTip(hash);
        return Added(true, 0);
      }
      r := MoveTip(i, tip.value);
    }
  }

  /** Statements collected for one batch or several (src/d1.rs:231-280). */
  class BatchCollector {
    var statements: seq<Stmt>

    constructor ()
      ensures statements == []
    {
      statements := [];
    }

    method Add(s: Stmt)
      modifies this
      ensures statements == old(statements) + [s]
    {
      statements := statements + [s];
    }

    method AddAll(more: seq<Stmt>)
      modifies this
      ensures statements == old(statements) + more
    {
      var i := 0;
      while i < |more|
        invariant 0 <= i <= |more| && statements == old(statements) + more[..i]
      {
        Add(more[i]);
        i := i + 1;
      }
    }

    /** Sequential batches of at most a hundred statements. */
    method Execute(store: HeaderStore)
      modifies this, store
      ensures store.Contents() == Run(old(store.Contents()), old(statements))
      ensures store.committed == old(store.committed) + Chunks(old(statements))
      ensures store.validation == old(store.validation)
    {
      hide Chunks, Run;
      ghost var all := statements;
      while statements != []
        invariant Run(old(store.Contents()), all) == Run(store.Contents(), statements)
        invariant old(store.committed) + Chunks(all) == store.committed + Chunks(statements)
        invariant store.validation == old(store.validation)
        decreases |statements|
      {
        var n := Min(|statements|, CHUNK);
        ChunkStep(store.Contents(), statements, n);
        assert store.committed + ([statements[..n]] + Chunks(statements[n..]))
            == (store.committed + [statements[..n]]) + Chunks(statements[n..]);
        store.Batch(statements[..n]);
        statements := statements[n..];
      }
      NoChunks(store.Contents());
      assert store.committed + [] == store.committed;
    }

    /** One batch, whatever its length. */
    method ExecuteAtomic(store: HeaderStore)
      modifies store
      ensures store.Contents() == Run(old(store.Contents()), statements)
      ensures store.committed == old(store.committed) + [statements]
      ensures store.validation == old(store.validation)
    {
      store.Batch(statements);
    }
  }

  function Chunks(stmts: seq<Stmt>): (r: seq<seq<Stmt>>)
    ensures forall i :: 0 <= i < |r| ==> 0 < |r[i]| <= 100
    ensures |r| == (|stmts| + 99) / 100
    decreases |stmts|
  {
    if stmts == [] then []
    else [stmts[..Min(|stmts|, CHUNK)]] + Chunks(stmts[Min(|stmts|, CHUNK)..])
  }

  lemma {:induction false} NoChunks(db: Db)
    ensures Chunks([]) == [] && Run(db, []) == db
  {
  }

  lemma {:induction false} ChunkStep(db: Db, stmts: seq<Stmt>, n: nat)
    requires stmts != [] && n == Min(|stmts|, CHUNK)
    ensures Chunks(stmts) == [stmts[..n]] + Chunks(stmts[n..])
    ensures Run(db, stmts) == Run(Run(db, stmts[..n]), stmts[n..])
  {
    assert stmts[..n] + stmts[n..] == stmts;
    RunAppend(db, stmts[..n], stmts[n..]);
  }

  /** Chunked or in one batch the table ends the same; the batches differ. */
  lemma {:induction false} ChunksRunAlike(db: Db, stmts: seq<Stmt>)
    ensures RunAll(db, Chunks(stmts)) == Run(db, stmts)
    decreases |stmts|
  {
    if stmts != [] {
      var n := Min(|stmts|, CHUNK);
      ChunkStep(db, stmts, n);
      ChunksRunAlike(Run(db, stmts[..n]), stmts[n..]);
      assert Chunks(stmts)[0] == stmts[..n] && Chunks(stmts)[1..] == Chunks(stmts[n..]);
    }
  }

  // ── Counting and branching ───────────────────────────────────────────────

  lemma {:induction false} NoneAbove(t: seq<Row>, floor: nat)
    ensures CountActiveAbove(t[..0], floor) == 0
  {
    assert ActiveAbove(t[..0], floor) == {};
  }

  lemma {:induction false} OneMoreAbove(t: seq<Row>, floor: nat, i: nat)
    requires i < |t|
    ensures CountActiveAbove(t[..i + 1], floor) ==
              CountActiveAbove(t[..i], floor) + if t[i].active && floor < t[i].h.height then 1 else 0
  {
    var a, b := ActiveAbove(t[..i], floor), ActiveAbove(t[..i + 1], floor);
    assert forall j :: 0 <= j < i ==> t[..i + 1][j] == t[..i][j];
    assert b == if t[i].active && floor < t[i].h.height then a + {i} else a;
  }

  lemma {:induction false} TurnedAwayFault(p: Params, t: seq<Row>, h: Header)
    requires Sound(Heads(t)) && TurnedAway(Heads(t), h)
    ensures Find(Heads(t), h.hash).None? ==> Judge(p, t, h) == (Some(BadPrev), false)
  {
    hide Sound, Heads, Find, LoadWindow, CheckContext;
  }

  /** The statements collected so far: those of the first `k` rows of the path,
      all above the floor. */
  ghost predicate BranchSoFar(hs: seq<Header>, n: nat, floor: nat, k: nat, r: seq<Stmt>)
    requires Sound(hs) && n < |hs| && k <= |Path(hs, n)|
  {
    && r == Activations(hs, Path(hs, n)[..k])
    && (0 < k ==> floor < hs[Path(hs, n)[k - 1]].height)
  }

  lemma {:induction false} BranchStart(hs: seq<Header>, n: nat)
    requires Sound(hs) && n < |hs|
    ensures 0 < |Path(hs, n)| && Path(hs, n)[0] == n && Activations(hs, Path(hs, n)[..0]) == []
  {
  }

  lemma {:induction false} BranchNext(hs: seq<Header>, n: nat, floor: nat, k: nat, r: seq<Stmt>)
    requires Sound(hs) && n < |hs| && k < |Path(hs, n)| && BranchSoFar(hs, n, floor, k, r)
    ensures Path(hs, n)[k] < |hs|
    ensures floor < hs[Path(hs, n)[k]].height ==> BranchSoFar(hs, n, floor, k + 1, r + [Activate(hs[Path(hs, n)[k]].hash)])
    ensures Parent(hs, Path(hs, n)[k]) == if k + 1 < |Path(hs, n)| then Some(Path(hs, n)[k + 1]) else None
  {
    var p := Path(hs, n);
    PathTail(hs, n, k);
    assert Path(hs, p[k]) == p[k..];
    if k + 1 < |p| { assert p[k..][1] == p[k + 1]; }
    hide Path, Sound;
    assert p[..k + 1] == p[..k] + [p[k]];
  }

  lemma {:induction false} BranchDone(hs: seq<Header>, n: nat, floor: nat, k: nat, r: seq<Stmt>)
    requires Sound(hs) && n < |hs| && k <= |Path(hs, n)| && BranchSoFar(hs, n, floor, k, r)
    requires k < |Path(hs, n)| ==> hs[Path(hs, n)[k]].height <= floor
    ensures r == Activations(hs, Branch(hs, n, floor))
  {
    hide Sound;
    var p := Path(hs, n);
    var d := Max(0, Min(|p|, hs[n].height - floor));
    assert k == d;
    assert p[..k] == p[..d];
  }

  lemma {:induction false} ReorgStmts(hs: seq<Header>, n: nat, c: nat, branch: seq<Stmt>, stmts: seq<Stmt>)
    requires Sound(hs) && n < |hs| && c < |hs| && branch == Activations(hs, Branch(hs, n, hs[c].height))
    requires stmts == [DeactivateAbove(hs[c].height)] + branch + [RecordPending(hs[c].height + 1)] + [ClearChainTip]
                      + [SetChainTipActive(hs[n].hash)]
    ensures stmts == ReorgBatch(hs, n, c)
  {
    hide Branch, Sound, Activations;
    assert [RecordPending(hs[c].height + 1)] + [ClearChainTip] + [SetChainTipActive(hs[n].hash)]
        == [RecordPending(hs[c].height + 1), ClearChainTip, SetChainTipActive(hs[n].hash)];
  }

  lemma {:induction false} UpdatedRows(was: Db, s: Stmt, rows: seq<Row>)
    requires !s.Insert? && !s.RecordPending? && !s.ClearPending? && |rows| == |was.rows|
    requires forall j :: 0 <= j < |rows| ==> rows[j] == Touch(s, was.rows, j)
    ensures Db(rows, was.pending) == Exec(was, s)
  {
    hide Touch;
    assert Exec(was, s).rows == rows;
  }

  lemma {:induction false} LinkIsParent(t: seq<Row>, i: nat)
    requires Sound(Heads(t)) && LinksTrue(t) && i < |t| && t[i].link.Some?
    ensures Parent(Heads(t), i) == t[i].link
  {
    ParentIs(Heads(t), i, t[i].link.value);
  }

  // ── The two-pointer walk ─────────────────────────────────────────────────

  /** Where the two pointers stand after `steps`: rows of the two paths that hold
      every common ancestor, the higher of them `steps` below the start. */
  ghost predicate Together(hs: seq<Header>, first: nat, second: nat, a: nat, b: nat, steps: nat) {
    && Sound(hs) && first < |hs| && second < |hs| && a < |hs| && b < |hs|
    && a in Path(hs, first) && b in Path(hs, second)
    && (forall c: nat :: c < |hs| && Common(hs, first, second, c) ==> c in Path(hs, a) && c in Path(hs, b))
    && Max(hs[a].height, hs[b].height) + steps == Max(hs[first].height, hs[second].height)
  }

  /** No stored row is an ancestor of both. */
  ghost predicate Apart(hs: seq<Header>, first: nat, second: nat) {
    Sound(hs) && first < |hs| && second < |hs| && forall c: nat :: c < |hs| ==> !Common(hs, first, second, c)
  }

  lemma {:induction false} StartTogether(hs: seq<Header>, first: nat, second: nat)
    requires Sound(hs) && first < |hs| && second < |hs|
    ensures Together(hs, first, second, first, second, 0)
  {
    PathSelf(hs, first);
    PathSelf(hs, second);
  }

  lemma {:induction false} TogetherIn(hs: seq<Header>, first: nat, second: nat, a: nat, b: nat, steps: nat)
    requires Together(hs, first, second, a, b, steps)
    ensures a < |hs| && b < |hs|
  {
  }

  lemma {:induction false} MetAt(hs: seq<Header>, first: nat, second: nat, a: nat, steps: nat)
    requires Together(hs, first, second, a, a, steps) && steps <= REORG_LIMIT
    ensures CommonAncestor(hs, first, second) == Some(a)
  {
    forall c: nat | c < |hs| && Common(hs, first, second, c) ensures hs[c].height <= hs[a].height {
      PathAt(hs, a, c);
    }
    MeetsUnique(hs, first, second, Some(a));
  }

  /** Of two different rows one is above every row of both their paths. */
  lemma {:induction false} CommonBelow(hs: seq<Header>, a: nat, b: nat, c: nat)
    requires Sound(hs) && a < |hs| && b < |hs| && a != b && c in Path(hs, a) && c in Path(hs, b)
    ensures c < |hs| && hs[c].height < Max(hs[a].height, hs[b].height)
    ensures hs[c].height <= hs[a].height && hs[c].height <= hs[b].height
    ensures hs[a].height >= hs[b].height ==> c != a
    ensures hs[b].height >= hs[a].height ==> c != b
  {
    PathAt(hs, a, c);
    PathAt(hs, b, c);
    assert Path(hs, a)[0] == a && Path(hs, b)[0] == b;
  }

  lemma {:induction false} GoneTooFar(hs: seq<Header>, first: nat, second: nat, a: nat, b: nat)
    requires Together(hs, first, second, a, b, REORG_LIMIT) && a != b
    ensures CommonAncestor(hs, first, second) == None
  {
    forall c: nat | HighestCommon(hs, first, second, c) ensures !Within(hs, first, second, c) {
      CommonBelow(hs, a, b, c);
    }
    MeetsUnique(hs, first, second, None);
  }

  lemma {:induction false} ApartNone(hs: seq<Header>, first: nat, second: nat)
    requires Apart(hs, first, second)
    ensures CommonAncestor(hs, first, second) == None
  {
    MeetsUnique(hs, first, second, None);
  }

  /** A row's path without the row is its parent's. */
  lemma {:induction false} BelowRow(hs: seq<Header>, a: nat, c: nat)
    requires Sound(hs) && a < |hs| && c in Path(hs, a) && c != a
    ensures Parent(hs, a).Some? && Parent(hs, a).value < |hs| && c in Path(hs, Parent(hs, a).value)
    ensures hs[Parent(hs, a).value].height + 1 == hs[a].height
  {
    SoundPair(hs, a, Parent(hs, a).value);
    PathCons(hs, a, Parent(hs, a).value);
  }

  lemma {:induction false} OnPath(hs: seq<Header>, first: nat, a: nat)
    requires Sound(hs) && first < |hs| && a in Path(hs, first)
    ensures a < |hs|
    ensures Parent(hs, a).Some? ==> Parent(hs, a).value in Path(hs, first) && Parent(hs, a).value < |hs|
                                    && hs[Parent(hs, a).value].height + 1 == hs[a].height
  {
    PathStep(hs, first, a);
    if Parent(hs, a).Some? { SoundPair(hs, a, Parent(hs, a).value); }
  }

  /** The state of the two pointers after one more step. */
  ghost predicate Stepped(hs: seq<Header>, first: nat, second: nat, a: Option<nat>, b: Option<nat>, steps: nat) {
    && (a.Some? && b.Some? ==> Together(hs, first, second, a.value, b.value, steps))
    && (a.None? || b.None? ==> Apart(hs, first, second))
  }

  lemma {:induction false} StepTogether(hs: seq<Header>, first: nat, second: nat, a: nat, b: nat, steps: nat)
    requires Together(hs, first, second, a, b, steps) && a != b && a < |hs| && b < |hs|
    ensures hs[a].height > hs[b].height ==> Stepped(hs, first, second, Parent(hs, a), Some(b), steps + 1)
    ensures hs[a].height < hs[b].height ==> Stepped(hs, first, second, Some(a), Parent(hs, b), steps + 1)
    ensures hs[a].height == hs[b].height ==> Stepped(hs, first, second, Parent(hs, a), Parent(hs, b), steps + 1)
  {
    hide Sound, Path;
    OnPath(hs, first, a);
    OnPath(hs, second, b);
    forall c: nat | c < |hs| && Common(hs, first, second, c)
      ensures hs[a].height >= hs[b].height ==> Parent(hs, a).Some? && c in Path(hs, Parent(hs, a).value)
      ensures hs[b].height >= hs[a].height ==> Parent(hs, b).Some? && c in Path(hs, Parent(hs, b).value)
    {
      CommonBelow(hs, a, b, c);
      if hs[a].height >= hs[b].height { BelowRow(hs, a, c); }
      if hs[b].height >= hs[a].height { BelowRow(hs, b, c); }
    }
  }

  // ── Tip moves ────────────────────────────────────────────────────────────

  lemma {:induction false} OneChunk(stmts: seq<Stmt>)
    requires 0 < |stmts| <= CHUNK
    ensures Chunks(stmts) == [stmts]
  {
    assert stmts[..|stmts|] == stmts && stmts[|stmts|..] == [];
    assert Chunks([]) == [];
  }

  lemma {:induction false} MovedShape(tx: seq<Stmt>, move: seq<Stmt>)
    ensures [tx] + [] == [tx] && [tx] + [move] == [tx, move]
  {
  }

  lemma {:induction false} MovedTxs(db: Db, tx: seq<Stmt>, move: seq<Stmt>)
    ensures RunAll(db, [tx]) == Run(db, tx) && [tx] + [] == [tx]
    ensures RunAll(db, [tx] + [move]) == Run(Run(db, tx), move)
  {
    hide Run;
    assert [tx][1..] == [] && ([tx] + [move])[1..] == [move] && [move][1..] == [];
    assert RunAll(Run(db, tx), [move]) == RunAll(Run(Run(db, tx), move), []);
  }

  // ── The window ───────────────────────────────────────────────────────────

  ghost function ActiveParentOf(t: seq<Row>, i: nat): Option<nat>
    requires i < |t|
  {
    var q := Parent(Heads(t), i);
    if q.Some? && t[q.value].active then q else None
  }

  lemma {:induction false} ActiveParentFound(t: seq<Row>, i: nat, j: nat)
    requires Sound(Heads(t)) && i < |t| && j < |t| && t[j].active && t[j].h.hash == t[i].h.prev
    ensures ActiveParentOf(t, i) == Some(j)
  {
    ParentIs(Heads(t), i, j);
  }

  lemma {:induction false} ActiveParentNone(t: seq<Row>, i: nat)
    requires Sound(Heads(t)) && i < |t| && 0 < t[i].h.height
    requires forall k: nat :: k < |t| && ActiveAt(t, k, t[i].h.height - 1) ==> t[k].h.hash != t[i].h.prev
    ensures ActiveParentOf(t, i) == None
  {
    var q := Parent(Heads(t), i);
    if q.Some? { SoundPair(Heads(t), i, q.value); }
  }

  /** The rows collected so far, and what is left to collect from `cur`. */
  ghost predicate WindowSoFar(t: seq<Row>, i: nat, depth: nat, chain: seq<nat>, cur: nat)
    requires Sound(Heads(t)) && i < |t| && cur < |t|
  {
    && 0 < |chain| <= depth + 1 && chain[|chain| - 1] == cur
    && Reach(t, i, depth) == chain[..|chain| - 1] + Reach(t, cur, depth + 1 - |chain|)
  }

  lemma {:induction false} WindowStart(t: seq<Row>, i: nat, depth: nat)
    requires Sound(Heads(t)) && i < |t|
    ensures WindowSoFar(t, i, depth, [i], i)
  {
    assert [i][..0] + Reach(t, i, depth) == Reach(t, i, depth);
  }

  lemma {:induction false} WindowNext(t: seq<Row>, i: nat, depth: nat, chain: seq<nat>, cur: nat)
    requires Sound(Heads(t)) && i < |t| && cur < |t| && WindowSoFar(t, i, depth, chain, cur)
    requires |chain| < depth && 0 < t[cur].h.height
    ensures var q := if t[cur].active then ActiveParentOf(t, cur) else Parent(Heads(t), cur);
            && (q.Some? ==> q.value < |t| && t[q.value].h.height + 1 == t[cur].h.height)
            && (q.Some? && t[cur].active ==> t[q.value].active)
            && (q.Some? ==> WindowSoFar(t, i, depth, chain + [q.value], q.value))
            && (q.None? ==> Reach(t, cur, depth + 1 - |chain|) == [cur])
  {
    var q := Parent(Heads(t), cur);
    if q.Some? {
      SoundPair(Heads(t), cur, q.value);
      if t[cur].active ==> t[q.value].active {
        WindowGrows(t, i, depth, chain, cur, q.value);
      }
    }
  }

  lemma {:induction false} WindowGrows(t: seq<Row>, i: nat, depth: nat, chain: seq<nat>, cur: nat, q: nat)
    requires Sound(Heads(t)) && i < |t| && cur < |t| && WindowSoFar(t, i, depth, chain, cur) && q < |t|
    requires |chain| < depth && 0 < t[cur].h.height && Parent(Heads(t), cur) == Some(q)
    requires t[cur].active ==> t[q].active
    ensures WindowSoFar(t, i, depth, chain + [q], q)
  {
    var n := |chain|;
    var d: nat := depth + 1 - n;
    assert Reach(t, cur, d) == [cur] + Reach(t, q, d - 1);
    hide Sound, Reach;
    assert (chain + [q])[..n] == chain[..n - 1] + [cur];
    assert chain[..n - 1] + ([cur] + Reach(t, q, d - 1)) == (chain[..n - 1] + [cur]) + Reach(t, q, d - 1);
  }

  /** Where the collecting stops nothing is left. */
  lemma {:induction false} WindowDone(t: seq<Row>, i: nat, depth: nat, chain: seq<nat>, cur: nat)
    requires Sound(Heads(t)) && i < |t| && cur < |t| && WindowSoFar(t, i, depth, chain, cur)
    requires depth <= |chain| || t[cur].h.height == 0 || Reach(t, cur, depth + 1 - |chain|) == [cur]
    ensures Reach(t, i, depth) == chain
  {
    var d: nat := depth + 1 - |chain|;
    assert Reach(t, cur, d) == [cur];
    assert chain[..|chain| - 1] + [cur] == chain;
  }

  // ── The live writes' transactions ────────────────────────────────────────

  /** The transactions of an outcome run and recorded, its result answered. */
  ghost predicate Performed(a: Db, before: seq<seq<Stmt>>, out: Outcome, b: Db, after: seq<seq<Stmt>>, r: Result) {
    b == RunAll(a, out.txs) && after == before + out.txs && r == out.result
  }

  ghost function After(tx: seq<Stmt>, out: Outcome): Outcome {
    Outcome([tx] + out.txs, out.result)
  }

  /** What weighing row `i` against the tip does. */
  ghost function Weighed(db: Db, i: nat): Outcome
    requires Sound(Heads(db.rows)) && i < |db.rows|
  {
    var t := db.rows;
    match ChainTip(t)
    case None => Outcome([TipMove(t[i].h.hash)], Added(true, 0))
    case Some(tip) =>
      if t[i].work <= t[tip].work then Outcome([], Added(false, 0))
      else if t[i].h.prev == t[tip].h.hash then Outcome([TipMove(t[i].h.hash)], Added(true, 0))
      else ReorgTo(db, i, tip)
  }

  lemma {:induction false} PerformedAfter(a: Db, before: seq<seq<Stmt>>, tx: seq<Stmt>, out: Outcome, b: Db,
                                          after: seq<seq<Stmt>>, r: Result)
    requires Performed(Run(a, tx), before + [tx], out, b, after, r)
    ensures Performed(a, before, After(tx, out), b, after, r)
  {
    hide Run;
    RunAllCons(a, tx, out.txs);
    assert before + ([tx] + out.txs) == (before + [tx]) + out.txs;
  }

  lemma {:induction false} PerformedNone(a: Db, before: seq<seq<Stmt>>, r: Result)
    ensures Performed(a, before, Outcome([], r), a, before, r)
  {
    assert before + [] == before;
  }

  lemma {:induction false} PerformedOne(a: Db, before: seq<seq<Stmt>>, tx: seq<Stmt>, r: Result)
    ensures Performed(a, before, Outcome([tx], r), Run(a, tx), before + [tx], r)
  {
    hide Run;
    RunAllOne(a, tx);
  }

  lemma {:induction false} PerformedTwo(a: Db, before: seq<seq<Stmt>>, tx: seq<Stmt>, more: seq<Stmt>, r: Result)
    ensures Performed(a, before, Outcome([tx, more], r), Run(Run(a, tx), more), before + [tx] + [more], r)
  {
    hide Run;
    TwoTxs(a, tx, more);
    assert before + [tx] + [more] == before + [tx, more];
  }

  /** The transactions of an insert that no rule refused. */
  lemma {:induction false} InsertOutcome(p: Params, db: Db, h: Header, anchored: bool)
    requires Sound(Heads(db.rows)) && Admissible(Heads(db.rows), h) && p.pow(h)
    requires Find(Heads(db.rows), h.hash).None? && Judge(p, db.rows, h) == (None, anchored)
    ensures var tip := ChainTip(db.rows);
            var row := NewRow(p, db.rows, h, false);
            var db1 := Run(db, [Insert(row)]);
            var out := Live.InsertHeader(p, db, h);
            && row.h == h && Sound(Heads(db1.rows)) && |db1.rows| == |db.rows| + 1 && (tip.Some? ==> tip.value < |db.rows|)
            && RowFits(db.rows, row) && RowFits(db.rows, NewRow(p, db.rows, h, true))
            && out == if tip.None? || (anchored && db.rows[tip.value].work < row.work) then
                        if tip.None? || h.prev == db.rows[tip.value].h.hash
                        then Outcome([Extension(NewRow(p, db.rows, h, true))], Added(true, 0))
                        else After([Insert(row)], ReorgTo(db1, |db.rows|, tip.value))
                      else Outcome([[Insert(row)]], Added(false, 0))
  {
    hide Sound, Path, Judge, ReorgTo, Admissible, Fits, Run, Extension;
    InsertedFits(db, NewRow(p, db.rows, h, false));
  }

  /** The transactions of a relink that no rule refused. */
  lemma {:induction false} RelinkOutcome(p: Params, db: Db, hash: Hash, i: nat, q: nat)
    requires Sound(Heads(db.rows)) && Find(Heads(db.rows), hash) == Some(i) && Parent(Heads(db.rows), i) == Some(q)
    requires i < |db.rows| && q < |db.rows| && db.rows[i].h.height == db.rows[q].h.height + 1
    requires CheckContext(p, LoadWindow(db.rows, q, p.depth(db.rows[q].h.height)), db.rows[i].h).None?
    ensures var tx := RelinkTx(p, db.rows, i, q);
            var db1 := Run(db, tx);
            var out := Live.RelinkOrphan(p, db, hash);
            && |db1.rows| == |db.rows| && Sound(Heads(db1.rows))
            && db1.rows[i].h == db.rows[i].h
            && out == After(tx, Weighed(db1, i))
  {
    hide Sound, Path, ReorgTo, LoadWindow, CheckContext, Run, TipMove;
    RelinkEffect(p, db, i, q);
    assert forall j :: 0 <= j < |db.rows| ==> Run(db, RelinkTx(p, db.rows, i, q)).rows[j].h == db.rows[j].h;
    MovedShape(RelinkTx(p, db.rows, i, q), TipMove(hash));
  }

  lemma {:induction false} ExtensionStmts(row: Row)
    ensures Extension(row) == [Insert(row), ClearChainTip, SetChainTipActive(row.h.hash)]
  {
  }

  lemma {:induction false} TwoTxs(db: Db, tx: seq<Stmt>, more: seq<Stmt>)
    ensures RunAll(db, [tx, more]) == Run(Run(db, tx), more)
  {
    MovedTxs(db, tx, more);
    assert [tx] + [more] == [tx, more];
  }

  /** A row that may join the table: its header fits and its link is true. */
  ghost predicate RowFits(t: seq<Row>, row: Row) {
    && Sound(Heads(t)) && Fits(Heads(t), row.h)
    && (row.link.Some? ==> row.link.value < |t| && t[row.link.value].h.hash == row.h.prev)
  }

  ghost predicate SaneRows(t: seq<Row>) {
    Sound(Heads(t)) && LinksTrue(t)
  }

  lemma {:induction false} InsertedSane(db: Db, row: Row)
    requires SaneRows(db.rows) && RowFits(db.rows, row)
    ensures SaneRows(Run(db, [Insert(row)]).rows) && |Run(db, [Insert(row)]).rows| == |db.rows| + 1
  {
    InsertEffect(db, row);
    RunOne(db, Insert(row));
    hide Sound, Fits, Run, Exec;
    AppendedSane(db.rows, row);
  }

  lemma {:induction false} AppendedSane(t: seq<Row>, row: Row)
    requires SaneRows(t) && RowFits(t, row)
    ensures SaneRows(t + [row])
  {
    hide Sound, Fits;
    assert Heads(t + [row]) == Heads(t) + [row.h];
    SoundAppend(Heads(t), row.h);
    AppendLinks(t, row);
  }

  lemma {:induction false} ExtendedSane(db: Db, row: Row)
    requires SaneRows(db.rows) && RowFits(db.rows, row)
    ensures SaneRows(Run(db, Extension(row)).rows)
  {
    hide Sound, Fits, Run, Extension;
    ExtensionEffect(db, row);
    AppendedSane(db.rows, row);
    var u := Run(db, Extension(row)).rows;
    assert SameButFlags(db.rows + [row], u);
    FlagsKeep(db.rows + [row], u);
  }

  /** Statements that touch no header and no link. */
  predicate FlagStmt(s: Stmt) {
    !s.Insert? && !s.RelinkHeader? && !s.LinkChild? && !s.LinkSpan?
  }

  ghost predicate SameLinks(t: seq<Row>, u: seq<Row>) {
    |t| == |u| && forall i {:trigger u[i]} :: 0 <= i < |t| ==> u[i].h == t[i].h && u[i].link == t[i].link
  }

  lemma {:induction false} FlagStmtSame(db: Db, s: Stmt)
    requires FlagStmt(s)
    ensures SameLinks(db.rows, Exec(db, s).rows)
  {
  }

  lemma {:induction false} FlagStmtsSame(db: Db, stmts: seq<Stmt>)
    requires forall i :: 0 <= i < |stmts| ==> FlagStmt(stmts[i])
    ensures SameLinks(db.rows, Run(db, stmts).rows)
    decreases |stmts|
  {
    if stmts != [] {
      FlagStmtSame(db, stmts[0]);
      hide Exec, FlagStmt;
      assert forall i :: 0 <= i < |stmts| - 1 ==> stmts[1..][i] == stmts[i + 1];
      FlagStmtsSame(Exec(db, stmts[0]), stmts[1..]);
    }
  }

  lemma {:induction false} SameLinksSane(t: seq<Row>, u: seq<Row>)
    requires SaneRows(t) && SameLinks(t, u)
    ensures SaneRows(u)
  {
    hide Sound;
    assert Heads(u) == Heads(t);
  }

  lemma {:induction false} FlagsSane(db: Db, stmts: seq<Stmt>)
    requires SaneRows(db.rows) && forall i :: 0 <= i < |stmts| ==> FlagStmt(stmts[i])
    ensures SaneRows(Run(db, stmts).rows)
  {
    hide *;
    FlagStmtsSame(db, stmts);
    SameLinksSane(db.rows, Run(db, stmts).rows);
  }

  lemma {:induction false} ReorgFlagStmts(hs: seq<Header>, n: nat, c: nat)
    requires Sound(hs) && n < |hs| && c < |hs|
    ensures forall i :: 0 <= i < |ReorgBatch(hs, n, c)| ==> FlagStmt(ReorgBatch(hs, n, c)[i])
  {
    hide Sound, Branch;
  }

  lemma {:induction false} RelinkedSane(p: Params, db: Db, i: nat, q: nat)
    requires Sound(Heads(db.rows)) && LinksTrue(db.rows) && i < |db.rows| && q < |db.rows|
    requires db.rows[i].h.prev == db.rows[q].h.hash
    ensures var r := Run(db, RelinkTx(p, db.rows, i, q)).rows;
            Heads(r) == Heads(db.rows) && LinksTrue(r) && |r| == |db.rows| && r[i].h == db.rows[i].h
  {
    hide Sound, Run;
    RelinkEffect(p, db, i, q);
    var t := db.rows;
    var r := Run(db, RelinkTx(p, t, i, q)).rows;
    forall j | 0 <= j < |r| && r[j].link.Some?
      ensures r[j].link.value < |r| && r[r[j].link.value].h.hash == r[j].h.prev
    {
      assert j != i ==> r[j] == t[j];
      var n := r[j].link.value;
      assert n < |t| && (n != i ==> r[n] == t[n]);
    }
  }
}
