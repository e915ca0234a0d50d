/** The most-work rule over whole runs of inserts, relinks and pushes. */
module MostWorkRuns {
  import opened Wrappers
  import opened Headers
  import opened HeaderTable
  import opened CleanStore
  import opened Live
  import opened Bulk
  import opened MostWork
  import opened MostWorkLinks
  import opened MostWorkPush
  import opened MostWorkTop
  import opened Push
  import opened PushClean
  import opened Runs

  // ── Every run climbs ─────────────────────────────────────────────────────

  lemma {:induction false} CutClimbs(p: Params, db: Db, txs: seq<seq<Stmt>>, stop: nat)
    requires AllClimb(p, db, txs) && WorkLow(p, db.rows)
    ensures Climbs(p, db.rows, RunAll(db, Cut(txs, stop)).rows)
    decreases |txs|
  {
    if txs != [] && 0 < stop {
      hide WorkKept, Rises, Run;
      CutClimbs(p, Run(db, txs[0]), txs[1..], stop - 1);
      assert Cut(txs, stop)[0] == txs[0];
      assert Cut(txs, stop)[1..] == Cut(txs[1..], stop - 1);
      ClimbsOn(p, db.rows, Run(db, txs[0]).rows, RunAll(db, Cut(txs, stop)).rows);
    } else {
      assert Cut(txs, stop) == [];
      ClimbsStay(p, db.rows);
    }
  }

  /** A push keeps the stored works within their parents'. */
  ghost predicate Keeps(p: Params, db: Db, call: Call)
    requires Sound(Heads(db.rows))
  {
    call.PushCall? ==> Accumulates(p, db.rows, call.run)
  }

  lemma {:induction false} CallClimbs(all: iset<Header>, p: Params, db: Db, call: Call)
    requires Inv(all, p, db) && Allowed(all, db, call) && WorkLow(p, db.rows)
    requires Sound(Heads(db.rows)) && Keeps(p, db, call)
    ensures Climbs(p, db.rows, After(all, p, db, call).rows)
  {
    match call {
      case InsertCall(h, stop) => InsertCallClimbs(all, p, db, h, stop);
      case RelinkCall(hash, stop) =>
        hide Good, Heads, RelinkOrphan, Cut, RunAll, AllClimb, WorkLow, Climbs;
        RelinkClimbs(p, db, hash);
        CutClimbs(p, db, RelinkOrphan(p, db, hash).txs, stop);
      case PushCall(run) =>
        hide Inv, Heads, Allowed, After, WorkKept, Rises, WorkLow, Accumulates;
        PushClimbs(all, p, db, run);
    }
  }

  lemma {:induction false} InsertCallClimbs(all: iset<Header>, p: Params, db: Db, h: Header, stop: nat)
    requires Inv(all, p, db) && h in all && WorkLow(p, db.rows) && Sound(Heads(db.rows))
    ensures Climbs(p, db.rows, After(all, p, db, InsertCall(h, stop)).rows)
  {
    hide Good, Sound, Heads, InsertHeader, Cut, RunAll, Admissible, AllClimb, WorkLow, Climbs;
    AgreeAdmits(all, Heads(db.rows), h);
    InsertClimbs(p, db, h);
    CutClimbs(p, db, InsertHeader(p, db, h).txs, stop);
  }

  /** Every push of the run accumulates where it is made. */
  ghost predicate AllKeep(all: iset<Header>, p: Params, db: Db, calls: seq<Call>)
    requires Inv(all, p, db)
    decreases |calls|
  {
    if calls == [] then true
    else if Allowed(all, db, calls[0]) then
      CallKeeps(all, p, db, calls[0]);
      InvSound(all, p, db);
      Keeps(p, db, calls[0]) && AllKeep(all, p, After(all, p, db, calls[0]), calls[1..])
    else AllKeep(all, p, db, calls[1..])
  }

  /** Over any run of inserts, relinks and pushes, live calls cut off anywhere and
      every push accumulating: no row's stored work falls, and the tip's stored
      work does not fall and is strictly higher when the tip is another row. */
  lemma {:induction false} RunClimbs(all: iset<Header>, p: Params, db: Db, calls: seq<Call>)
    requires Inv(all, p, db) && AllKeep(all, p, db, calls) && WorkLow(p, db.rows)
    ensures Climbs(p, db.rows, Replay(all, p, db, calls).rows)
    decreases |calls|
  {
    hide Inv, Allowed, After, Climbs, WorkLow, Keeps;
    if calls == [] {
      ClimbsStay(p, db.rows);
    } else if Allowed(all, db, calls[0]) {
      CallKeeps(all, p, db, calls[0]);
      InvSound(all, p, db);
      CallClimbs(all, p, db, calls[0]);
      var next := After(all, p, db, calls[0]);
      LowOf(p, db.rows, next.rows);
      RunClimbs(all, p, next, calls[1..]);
      ClimbsOn(p, db.rows, next.rows, Replay(all, p, next, calls[1..]).rows);
    } else {
      RunClimbs(all, p, db, calls[1..]);
    }
  }

  // ── Runs whose calls end Ok ──────────────────────────────────────────────

  /** A call that runs to its end, without the missing-ancestor error; a push that
      is served links no row that outworks the tip. */
  ghost predicate RunsThrough(all: iset<Header>, p: Params, db: Db, call: Call)
    requires Inv(all, p, db) && Allowed(all, db, call)
  {
    match call
    case InsertCall(h, stop) =>
      AgreeAdmits(all, Heads(db.rows), h);
      |InsertHeader(p, db, h).txs| <= stop && InsertHeader(p, db, h).result != NoAncestor
    case RelinkCall(hash, stop) =>
      |RelinkOrphan(p, db, hash).txs| <= stop && RelinkOrphan(p, db, hash).result != NoAncestor
    case PushCall(run) =>
      InvParts(all, p, db);
      && InsertHeadersBatch(all, p, db, run).1 != NoAncestor
      && (IngestPushed(all, p, db, run).1 == Some(Served) ==> LinksLow(p, db.rows, run))
  }

  lemma {:induction false} InvParts(all: iset<Header>, p: Params, db: Db)
    requires Inv(all, p, db)
    ensures Agree(all) && AllIn(all, Heads(db.rows)) && Sound(Heads(db.rows))
  {
    InvIs(all, p, db);
    InvSound(all, p, db);
  }

  lemma {:induction false} OkTop(all: iset<Header>, p: Params, db: Db, call: Call)
    requires Inv(all, p, db) && Allowed(all, db, call) && RunsThrough(all, p, db, call)
    requires TopLinked(db.rows) && WorkLow(p, db.rows)
    ensures TopLinked(After(all, p, db, call).rows)
  {
    InvParts(all, p, db);
    hide Inv, Sound, Heads, InsertHeader, RelinkOrphan, RunAll, Admissible, WorkLow, TopLinked, IngestPushed,
         InsertHeadersBatch, LinksLow, Agree, AllIn, StandsOnStored;
    match call {
      case InsertCall(h, stop) => InsertOkTop(all, p, db, h);
      case RelinkCall(hash, stop) => RelinkTopAt(all, p, db, hash);
      case PushCall(run) => PushTop(all, p, db, run);
    }
  }

  lemma {:induction false} RelinkTopAt(all: iset<Header>, p: Params, db: Db, hash: Hash)
    requires Inv(all, p, db) && TopLinked(db.rows) && WorkLow(p, db.rows)
    ensures Sound(Heads(db.rows))
    ensures RelinkOrphan(p, db, hash).result != NoAncestor ==>
              TopLinked(RunAll(db, RelinkOrphan(p, db, hash).txs).rows)
  {
    InvIs(all, p, db);
    RelinkOkTop(p, db, hash);
  }

  ghost predicate AllRunThrough(all: iset<Header>, p: Params, db: Db, calls: seq<Call>)
    requires Inv(all, p, db)
    decreases |calls|
  {
    if calls == [] then true
    else if Allowed(all, db, calls[0]) then
      CallKeeps(all, p, db, calls[0]);
      RunsThrough(all, p, db, calls[0]) && AllRunThrough(all, p, After(all, p, db, calls[0]), calls[1..])
    else AllRunThrough(all, p, db, calls[1..])
  }

  lemma {:induction false} RunTop(all: iset<Header>, p: Params, db: Db, calls: seq<Call>)
    requires Inv(all, p, db) && AllKeep(all, p, db, calls) && AllRunThrough(all, p, db, calls)
    requires TopLinked(db.rows) && WorkLow(p, db.rows)
    ensures TopLinked(Replay(all, p, db, calls).rows)
    decreases |calls|
  {
    hide Inv, Allowed, After, WorkLow, TopLinked, RunsThrough, Climbs, Keeps;
    if calls != [] {
      if Allowed(all, db, calls[0]) {
        CallKeeps(all, p, db, calls[0]);
        InvSound(all, p, db);
        CallClimbs(all, p, db, calls[0]);
        OkTop(all, p, db, calls[0]);
        LowOf(p, db.rows, After(all, p, db, calls[0]).rows);
        RunTop(all, p, After(all, p, db, calls[0]), calls[1..]);
      } else {
        RunTop(all, p, db, calls[1..]);
      }
    }
  }

  /** From an empty store, after any run of inserts, relinks and pushes that all
      ran through, every push accumulating and linking no row that outworks the
      tip: no row with a parent link has more work than the tip, so a tie keeps
      the row seen first. */
  lemma {:induction false} NoLinkedRowOutworksTheTip(all: iset<Header>, p: Params, calls: seq<Call>, k: nat, i: nat)
    requires Agree(all) && p.Ascending() && Inv(all, p, EMPTY)
    requires AllKeep(all, p, EMPTY, calls) && AllRunThrough(all, p, EMPTY, calls)
    requires var t := Replay(all, p, EMPTY, calls).rows; ChainTip(t) == Some(k) && i < |t| && t[i].link.Some?
    ensures var t := Replay(all, p, EMPTY, calls).rows; t[i].work <= t[k].work
  {
    hide Replay, AllRunThrough, AllKeep;
    assert ChainTip(EMPTY.rows).None?;
    RunTop(all, p, EMPTY, calls);
  }
}
