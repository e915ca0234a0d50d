/** What every stored header has met, over every run of calls: the proof of work,
    and the listed hash wherever its height is listed (src/storage.rs:554-630,
    1046-1166, 1846-1869; src/consensus.rs:401-415). */
module Vetted {
  import opened Wrappers
  import opened Headers
  import opened HeaderTable
  import opened CleanStore
  import opened Live
  import opened Bulk
  import opened Push
  import opened PushClean
  import opened PushStored
  import opened Rules
  import opened Admission
  import opened Runs

  ghost predicate Vetted(p: Params, h: Header) {
    p.pow(h) && Listed(p, h)
  }

  ghost predicate AllVetted(p: Params, hs: seq<Header>) {
    forall i :: 0 <= i < |hs| ==> Vetted(p, hs[i])
  }

  // ── One header ───────────────────────────────────────────────────────────

  lemma {:induction false} JudgedListed(p: Params, t: seq<Row>, h: Header)
    requires Sound(Heads(t)) && p.Ascending() && Judge(p, t, h).0.None?
    ensures Listed(p, h)
  {
    ListedExact(p, h);
    hide Sound, Heads, Find, LoadWindow, ChainTip, StoredCheckpointAbove, Listed, View;
  }

  lemma {:induction false} WrittenJudged(p: Params, db: Db, h: Header)
    requires Sound(Heads(db.rows)) && Admissible(Heads(db.rows), h) && InsertHeader(p, db, h).txs != []
    ensures p.pow(h) && Judge(p, db.rows, h).0.None?
  {
    hide Sound, Judge, Run, ChainTip, Find, Admissible, ReorgTo, Heads, NewRow, Extension;
  }

  /** A live insert writes no header it has not vetted. */
  lemma {:induction false} InsertVets(p: Params, db: Db, h: Header)
    requires Sound(Heads(db.rows)) && Admissible(Heads(db.rows), h) && p.Ascending() && InsertHeader(p, db, h).txs != []
    ensures Vetted(p, h)
  {
    hide Sound, Heads, Admissible, InsertHeader, Judge, Listed;
    WrittenJudged(p, db, h);
    JudgedListed(p, db.rows, h);
  }

  lemma {:induction false} OneMoreVetted(p: Params, hs: seq<Header>, h: Header)
    requires AllVetted(p, hs) && Vetted(p, h)
    ensures AllVetted(p, hs + [h])
  {
    hide Vetted;
  }

  lemma {:induction false} InsertCutVetted(p: Params, db: Db, h: Header, stop: nat)
    requires Sound(Heads(db.rows)) && Admissible(Heads(db.rows), h) && p.Ascending() && AllVetted(p, Heads(db.rows))
    ensures AllVetted(p, Heads(RunAll(db, Cut(InsertHeader(p, db, h).txs, stop)).rows))
  {
    hide *;
    InsertCutHeads(p, db, h, stop);
    if InsertHeader(p, db, h).txs == [] {
      CutNone(db, stop);
    } else {
      InsertVets(p, db, h);
      OneMoreVetted(p, Heads(db.rows), h);
    }
  }

  // ── A run ────────────────────────────────────────────────────────────────

  lemma {:induction false} MemberListed(p: Params, line: seq<Header>, run: seq<Header>, below: Option<nat>,
                                        vouched: Option<nat>, t: seq<Row>)
    requires WorkedChain(p, run) && RunObeys(p, line, run, below, vouched, t)
    ensures AllVetted(p, run)
  {
    hide Listed, Answers, ServedThere;
    forall j | 0 <= j < |run| ensures Vetted(p, run[j]) {
      assert RunMember(p, line, run, below, vouched, t, j);
    }
  }

  lemma {:induction false} AcceptedVetted(p: Params, t: seq<Row>, run: seq<Header>)
    requires Sound(Heads(t)) && p.Ascending() && run != [] && JudgeRun(p, t, run).None?
    ensures AllVetted(p, run)
  {
    FindHolds(t, run[0].prev);
    hide *;
    var below := StoredCheckpointAbove(p, t, run[0].height, ChainTip(t));
    BarExact(p, t, run[0].height);
    if Holds(t, run[0].prev) {
      var q := HoldsRow(t, run[0].prev);
      RunAdmits(p, t, run, q, below);
      MemberListed(p, Line(t, q), run, below, None, t);
    } else {
      var vouched := CheckpointInside(p.checkpoints, run[0].height, run[|run| - 1].height);
      VouchesExact(p, run);
      LooseRunAdmits(p, t, run, below, vouched);
      MemberListed(p, [], run, below, if Starts(run) then Some(0) else vouched, t);
    }
  }

  lemma {:induction false} HoldsRow(t: seq<Row>, hash: Hash) returns (q: nat)
    requires Holds(t, hash)
    ensures q < |t| && t[q].h.hash == hash
  {
    q :| q < |t| && t[q].h.hash == hash;
  }

  lemma {:induction false} HeldVetted(all: iset<Header>, p: Params, a: seq<Header>, b: seq<Header>, run: seq<Header>)
    requires Held(all, a, b, run) && AllVetted(p, a) && AllVetted(p, run)
    ensures AllVetted(p, b)
  {
    hide Vetted, Sound, AllIn;
    forall i | 0 <= i < |b| ensures Vetted(p, b[i]) {
      if i < |a| { assert b[i] == a[i]; } else { assert b[i] in run; }
    }
  }

  /** A push, whatever it answers, stores no header it has not vetted. */
  lemma {:induction false} PushVetted(all: iset<Header>, p: Params, db: Db, run: seq<Header>)
    requires Agree(all) && AllIn(all, run) && AllIn(all, Heads(db.rows)) && Sound(Heads(db.rows))
    requires p.Ascending() && AllVetted(p, Heads(db.rows))
    ensures AllVetted(p, Heads(IngestPushed(all, p, db, run).0.rows))
  {
    hide *;
    IngestIs(all, p, db, run);
    PushHolds(all, p, db, run);
    var (mid, result) := InsertHeadersBatch(all, p, db, run);
    CanonicalizeHeads(mid, run);
    if run == [] {
      NoneVetted(p);
      HeldVetted(all, p, Heads(db.rows), Heads(mid.rows), run);
    } else if JudgeRun(p, db.rows, run).None? {
      AcceptedVetted(p, db.rows, run);
      HeldVetted(all, p, Heads(db.rows), Heads(mid.rows), run);
    } else {
      BatchCases(all, p, db, run);
    }
  }

  lemma {:induction false} NoneVetted(p: Params)
    ensures AllVetted(p, [])
  {
  }

  // ── Whole runs ───────────────────────────────────────────────────────────

  lemma {:induction false} RelinkCutVetted(p: Params, db: Db, hash: Hash, stop: nat)
    requires Sound(Heads(db.rows)) && AllVetted(p, Heads(db.rows))
    ensures AllVetted(p, Heads(RunAll(db, Cut(RelinkOrphan(p, db, hash).txs, stop)).rows))
  {
    hide *;
    RelinkNoInserts(p, db, hash);
    CutNoInserts(RelinkOrphan(p, db, hash).txs, stop);
    RunAllKeepsHeads(db, Cut(RelinkOrphan(p, db, hash).txs, stop));
  }

  lemma {:induction false} CallVets(all: iset<Header>, p: Params, db: Db, call: Call)
    requires Inv(all, p, db) && Allowed(all, db, call) && AllVetted(p, Heads(db.rows))
    ensures AllVetted(p, Heads(After(all, p, db, call).rows))
  {
    InvSound(all, p, db);
    hide Good, Sound, Heads, Agree, IngestPushed, RunAll, Cut, InsertHeader, RelinkOrphan, AllVetted, Admissible, StandsOnStored;
    match call {
      case InsertCall(h, stop) =>
        AgreeAdmits(all, Heads(db.rows), h);
        InsertCutVetted(p, db, h, stop);
      case RelinkCall(hash, stop) => RelinkCutVetted(p, db, hash, stop);
      case PushCall(run) => PushVetted(all, p, db, run);
    }
  }

  lemma {:induction false} ReplayVets(all: iset<Header>, p: Params, db: Db, calls: seq<Call>)
    requires Inv(all, p, db) && AllVetted(p, Heads(db.rows))
    ensures AllVetted(p, Heads(Replay(all, p, db, calls).rows))
    decreases |calls|
  {
    hide Inv, Allowed, After, AllVetted, Heads;
    if calls != [] {
      if Allowed(all, db, calls[0]) {
        CallKeeps(all, p, db, calls[0]);
        CallVets(all, p, db, calls[0]);
        ReplayVets(all, p, After(all, p, db, calls[0]), calls[1..]);
      } else {
        ReplayVets(all, p, db, calls[1..]);
      }
    }
  }

  /** From an empty store, over every run of inserts, relinks and pushes, each cut
      off anywhere, every stored row, active, linked or waiting, has its proof of
      work and, at a listed height, the listed hash. */
  lemma {:induction false} EveryRowIsVetted(all: iset<Header>, p: Params, calls: seq<Call>, i: nat)
    requires Agree(all) && p.Ascending()
    ensures Inv(all, p, EMPTY)
    ensures var t := Replay(all, p, EMPTY, calls).rows;
            i < |t| ==>
              && p.pow(t[i].h)
              && forall k :: 0 <= k < |p.checkpoints| && p.checkpoints[k].0 == t[i].h.height ==>
                   p.checkpoints[k].1 == t[i].h.hash
  {
    EmptyIsGood(all, p);
    NoneVetted(p);
    assert Heads(EMPTY.rows) == [];
    ReplayVets(all, p, EMPTY, calls);
    hide Replay, Inv, Agree;
    var t := Replay(all, p, EMPTY, calls).rows;
    if i < |t| { assert Vetted(p, Heads(t)[i]); }
  }
}
