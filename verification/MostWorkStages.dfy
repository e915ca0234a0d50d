/** Stages of a store under rules that let every header in, and what one live call
    makes of a stage: for runs on which the most-work rule fails. */
module MostWorkStages {
  import opened Wrappers
  import opened Headers
  import opened HeaderTable
  import opened Ancestor
  import opened CleanStore
  import opened Live
  import opened Bulk
  import opened Push
  import opened MostWorkTop
  import opened MostWorkLinks
  import opened MostWorkRuns
  import opened Runs
  import opened RunWindow

  /** A block's work is one more than its bits, and the rule asks for the bits its
      time says, whatever the window. */
  const OPEN := Params((h: Header) => true, (bits: nat) => bits + 1,
                       (view: map<nat, Link>, prev: nat, time: nat) => Bits(time), (height: nat) => 1, 1, [])

  /** A chain from the genesis up, two headers that branch off it above its header
      at height 4, and, over its header at height 1, one of work 10 under three of
      work 1. */
  function Main(i: nat): Header {
    Header(i + 1, i, i, 0, 0)
  }

  const SIDE := Header(101, 5, 5, 0, 0)
  const SIDE_TOP := Header(102, 101, 6, 0, 0)
  const HEAVY := Header(203, 2, 2, 9, 9)

  function Light(i: nat): Header {
    Header(204 + i, 203 + i, 3 + i, 0, 0)
  }

  /** The known header of a hash. */
  function HeaderOf(x: Hash): Header
    requires 0 < x
  {
    if x == 101 then SIDE else if x == 102 then SIDE_TOP else if x == 203 then HEAVY
    else if 204 <= x then Light(x - 204) else Main(x - 1)
  }

  ghost predicate Known(h: Header) {
    (1 <= h.hash <= 6 || h.hash == 101 || h.hash == 102 || 203 <= h.hash <= 206) && h == HeaderOf(h.hash)
  }

  ghost function All(): iset<Header> {
    iset h: Header | Known(h)
  }

  lemma {:induction false} AllAgree()
    ensures Agree(All()) && OPEN.Ascending()
  {
  }

  // ── What the open rules answer ───────────────────────────────────────────

  lemma {:induction false} OpenContext(links: seq<Link>, h: Header)
    requires 0 < h.height && h.bits == h.time
    ensures CheckContext(OPEN, links, h).None?
  {
    assert OPEN.CheckpointAt(h.height).None?;
    hide View;
  }

  lemma {:induction false} OpenJudge(t: seq<Row>, h: Header)
    requires Sound(Heads(t)) && 0 < h.height && h.bits == h.time && h.prev != ZERO_HASH && ChainTip(t).Some?
    requires ParentOf(Heads(t), h).Some? ==> h.height == t[ParentOf(Heads(t), h).value].h.height + 1
    ensures Judge(OPEN, t, h) == (None, ParentOf(Heads(t), h).Some?)
  {
    assert OPEN.CheckpointAt(h.height).None?;
    assert StoredCheckpointAbove(OPEN, t, h.height, ChainTip(t)).None?;
    hide Sound, ChainTip, Heads, LoadWindow;
    if ParentOf(Heads(t), h).Some? {
      var q := ParentOf(Heads(t), h).value;
      OpenContext(LoadWindow(t, q, OPEN.depth(t[q].h.height)), h);
    }
  }

  // ── Stages of the run ────────────────────────────────────────────────────

  /** A row as a stage tells it: its header, its link and its work. */
  datatype Told = Told(h: Header, link: Option<nat>, work: nat)

  ghost predicate Tells(t: seq<Row>, told: seq<Told>) {
    |t| == |told| && forall i {:trigger t[i]} {:trigger told[i]} :: 0 <= i < |t| ==>
      t[i].h == told[i].h && t[i].link == told[i].link && t[i].work == told[i].work
  }

  /** The store at a stage: its rows, and the tip of the clean chain. */
  ghost predicate Stage(db: Db, told: seq<Told>, k: nat) {
    Inv(All(), OPEN, db) && Tells(db.rows, told) && GoodAt(OPEN, db.rows, k) && k < |told|
  }

  /** From an empty store the calls run through, and end at a stage. */
  ghost predicate Ends(calls: seq<Call>, told: seq<Told>, k: nat) {
    && Inv(All(), OPEN, EMPTY) && AllRunThrough(All(), OPEN, EMPTY, calls)
    && Stage(Replay(All(), OPEN, EMPTY, calls), told, k)
  }

  lemma {:induction false} OneMore(db: Db, calls: seq<Call>, call: Call)
    requires Inv(All(), OPEN, db) && AllRunThrough(All(), OPEN, db, calls)
    requires Inv(All(), OPEN, Replay(All(), OPEN, db, calls)) && Allowed(All(), Replay(All(), OPEN, db, calls), call)
    requires RunsThrough(All(), OPEN, Replay(All(), OPEN, db, calls), call)
    ensures AllRunThrough(All(), OPEN, db, calls + [call])
    ensures Replay(All(), OPEN, db, calls + [call]) == After(All(), OPEN, Replay(All(), OPEN, db, calls), call)
    decreases |calls|
  {
    hide Inv, Allowed, After, RunsThrough;
    if calls == [] {
      CallKeeps(All(), OPEN, db, call);
      assert [] + [call] == [call];
    } else {
      assert (calls + [call])[0] == calls[0] && (calls + [call])[1..] == calls[1..] + [call];
      if Allowed(All(), db, calls[0]) {
        CallKeeps(All(), OPEN, db, calls[0]);
        OneMore(After(All(), OPEN, db, calls[0]), calls[1..], call);
      } else {
        OneMore(db, calls[1..], call);
      }
    }
  }

  lemma {:induction false} StageFacts(db: Db, told: seq<Told>, k: nat)
    requires Stage(db, told, k)
    ensures Agree(All()) && OPEN.Ascending() && AllIn(All(), Heads(db.rows)) && Good(OPEN, db.rows)
    ensures Sound(Heads(db.rows)) && LinksTrue(db.rows) && k < |db.rows| == |told| && GoodAt(OPEN, db.rows, k)
    ensures ChainTip(db.rows) == Some(k)
    ensures forall i :: 0 <= i < |told| ==> Heads(db.rows)[i] == told[i].h
  {
    InvIs(All(), OPEN, db);
    CleanTip(db.rows, k);
    hide Known, Path, Root, Sound;
  }

  lemma {:induction false} ToldHash(db: Db, told: seq<Told>, k: nat, i: nat)
    requires Stage(db, told, k) && i < |told|
    ensures Find(Heads(db.rows), told[i].h.hash) == Some(i)
  {
    StageFacts(db, told, k);
    hide Stage, Sound;
    FindIs(Heads(db.rows), i, told[i].h.hash);
  }

  lemma {:induction false} ToldNone(db: Db, told: seq<Told>, k: nat, hash: Hash)
    requires Stage(db, told, k) && forall i :: 0 <= i < |told| ==> told[i].h.hash != hash
    ensures Find(Heads(db.rows), hash).None?
  {
    StageFacts(db, told, k);
    hide Stage, Sound;
  }

  /** A header new to a stage, its parent told as row `b` or not stored. */
  ghost predicate New(told: seq<Told>, h: Header, b: Option<nat>) {
    && Known(h) && 0 < h.height && h.bits == h.time && h.prev != ZERO_HASH
    && (forall i :: 0 <= i < |told| ==> told[i].h.hash != h.hash)
    && match b
       case Some(q) => q < |told| && told[q].h.hash == h.prev
       case None => forall i :: 0 <= i < |told| ==> told[i].h.hash != h.prev
  }

  function WorkOn(told: seq<Told>, h: Header, b: Option<nat>): nat
    requires b.Some? ==> b.value < |told|
  {
    (if b.Some? then told[b.value].work else 0) + h.bits + 1
  }

  lemma {:induction false} NewParent(db: Db, told: seq<Told>, k: nat, h: Header, b: Option<nat>)
    requires Stage(db, told, k) && New(told, h, b)
    ensures Find(Heads(db.rows), h.hash).None? && ParentOf(Heads(db.rows), h) == b
  {
    hide Stage, Known;
    ToldNone(db, told, k, h.hash);
    match b {
      case Some(q) => ToldHash(db, told, k, q);
      case None => ToldNone(db, told, k, h.prev);
    }
  }

  lemma {:induction false} NewAdmitted(db: Db, told: seq<Told>, k: nat, h: Header, b: Option<nat>)
    requires Stage(db, told, k) && New(told, h, b)
    ensures h in All() && Admissible(Heads(db.rows), h)
    ensures b.Some? ==> h.height == told[b.value].h.height + 1
  {
    StageFacts(db, told, k);
    hide Stage, Sound, Known;
    assert h in All();
    AgreeAdmits(All(), Heads(db.rows), h);
    if b.Some? { assert Heads(db.rows)[b.value] in All(); }
  }

  lemma {:induction false} NewJudged(db: Db, told: seq<Told>, k: nat, h: Header, b: Option<nat>)
    requires Stage(db, told, k) && New(told, h, b) && Sound(Heads(db.rows)) && ParentOf(Heads(db.rows), h) == b
    requires ChainTip(db.rows).Some? && Tells(db.rows, told) && (b.Some? ==> h.height == told[b.value].h.height + 1)
    ensures Judge(OPEN, db.rows, h) == (None, b.Some?) && OPEN.pow(h)
  {
    hide Stage, Sound, Known, Heads, ChainTip, Judge, ParentOf;
    OpenJudge(db.rows, h);
  }

  lemma {:induction false} NewRowIs(t: seq<Row>, told: seq<Told>, h: Header, b: Option<nat>)
    requires ParentOf(Heads(t), h) == b && Tells(t, told) && (b.Some? ==> b.value < |told|)
    ensures NewRow(OPEN, t, h, false) == Row(h, b, false, false, WorkOn(told, h, b))
  {
    hide Heads, ParentOf;
  }

  lemma {:induction false} NewInside(told: seq<Told>, h: Header, b: Option<nat>)
    requires New(told, h, b)
    ensures b.Some? ==> b.value < |told| && told[b.value].h.hash == h.prev
  {
    hide Known;
  }

  lemma {:induction false} NewRowTold(db: Db, told: seq<Told>, k: nat, h: Header, b: Option<nat>)
    requires Stage(db, told, k) && New(told, h, b)
    ensures Sound(Heads(db.rows)) && Find(Heads(db.rows), h.hash).None? && Admissible(Heads(db.rows), h)
    ensures Judge(OPEN, db.rows, h) == (None, b.Some?) && OPEN.pow(h)
    ensures b.Some? ==> b.value < |told|
    ensures NewRow(OPEN, db.rows, h, false) == Row(h, b, false, false, WorkOn(told, h, b))
  {
    hide *;
    StageFacts(db, told, k);
    NewInside(told, h, b);
    NewParent(db, told, k, h, b);
    NewAdmitted(db, told, k, h, b);
    TellsRows(db, told, k);
    NewJudged(db, told, k, h, b);
    NewRowIs(db.rows, told, h, b);
  }

  lemma {:induction false} TellsRows(db: Db, told: seq<Told>, k: nat)
    requires Stage(db, told, k)
    ensures Tells(db.rows, told)
  {
  }

  // ── One call from one stage to the next ──────────────────────────────────

  lemma {:induction false} AcceptedWrites(p: Params, db: Db, h: Header)
    requires Sound(Heads(db.rows)) && Admissible(Heads(db.rows), h) && p.pow(h)
    requires Find(Heads(db.rows), h.hash).None? && Judge(p, db.rows, h).0.None?
    ensures InsertHeader(p, db, h).txs != []
  {
    hide Sound, Heads, ChainTip, Judge, Admissible, Find, NewRow, ReorgTo, Run;
  }

  /** An insert that runs through, and where it leads. */
  lemma {:induction false} InsertRuns(all: iset<Header>, p: Params, db: Db, h: Header, txs: seq<seq<Stmt>>, result: Result)
    requires Inv(all, p, db) && h in all && Sound(Heads(db.rows)) && Admissible(Heads(db.rows), h)
    requires InsertHeader(p, db, h) == Outcome(txs, result) && |txs| <= 9 && result != NoAncestor
    ensures Allowed(all, db, InsertCall(h, 9)) && RunsThrough(all, p, db, InsertCall(h, 9))
    ensures After(all, p, db, InsertCall(h, 9)) == RunAll(db, txs) && Inv(all, p, RunAll(db, txs))
  {
    hide Sound, Heads, InsertHeader, RunAll, Inv, Admissible, IngestPushed, InsertHeadersBatch, LinksLow;
    CallKeeps(all, p, db, InsertCall(h, 9));
  }

  lemma {:induction false} RelinkRuns(all: iset<Header>, p: Params, db: Db, hash: Hash, txs: seq<seq<Stmt>>, result: Result)
    requires Inv(all, p, db) && Sound(Heads(db.rows))
    requires RelinkOrphan(p, db, hash) == Outcome(txs, result) && |txs| <= 9 && result != NoAncestor
    ensures Allowed(all, db, RelinkCall(hash, 9)) && RunsThrough(all, p, db, RelinkCall(hash, 9))
    ensures After(all, p, db, RelinkCall(hash, 9)) == RunAll(db, txs) && Inv(all, p, RunAll(db, txs))
  {
    hide Sound, Heads, RelinkOrphan, RunAll, Inv, Admissible, IngestPushed, InsertHeadersBatch, LinksLow;
    CallKeeps(all, p, db, RelinkCall(hash, 9));
  }

  lemma {:induction false} InsertedAll(db: Db, told: seq<Told>, k: nat, h: Header, txs: seq<seq<Stmt>>, result: Result)
    requires Stage(db, told, k) && h in All() && Sound(Heads(db.rows)) && Admissible(Heads(db.rows), h)
    requires InsertHeader(OPEN, db, h) == Outcome(txs, result) && |txs| <= 9 && result != NoAncestor
    ensures Allowed(All(), db, InsertCall(h, 9)) && Inv(All(), OPEN, db)
    ensures RunsThrough(All(), OPEN, db, InsertCall(h, 9))
    ensures After(All(), OPEN, db, InsertCall(h, 9)) == RunAll(db, txs) && Inv(All(), OPEN, RunAll(db, txs))
  {
    StageInv(db, told, k);
    hide *;
    InsertRuns(All(), OPEN, db, h, txs, result);
  }

  lemma {:induction false} StageInv(db: Db, told: seq<Told>, k: nat)
    requires Stage(db, told, k)
    ensures Inv(All(), OPEN, db)
  {
  }

  lemma {:induction false} StageIs(db: Db, told: seq<Told>, k: nat)
    requires Inv(All(), OPEN, db) && Tells(db.rows, told) && GoodAt(OPEN, db.rows, k) && k < |told|
    ensures Stage(db, told, k)
  {
  }

  lemma {:induction false} TellsMore(t: seq<Row>, told: seq<Told>, row: Row)
    requires Tells(t, told)
    ensures Tells(t + [row], told + [Told(row.h, row.link, row.work)])
  {
  }

  lemma {:induction false} WaitsOut(db: Db, told: seq<Told>, k: nat, h: Header, b: Option<nat>)
    requires Stage(db, told, k) && New(told, h, b) && (b.Some? ==> WorkOn(told, h, b) <= told[k].work)
    ensures Sound(Heads(db.rows)) && Admissible(Heads(db.rows), h) && k < |db.rows|
    ensures var row := Row(h, b, false, false, WorkOn(told, h, b));
            && InsertHeader(OPEN, db, h) == Outcome([[Insert(row)]], Added(false, 0))
            && Run(db, [Insert(row)]).rows == db.rows + [row] && GoodAt(OPEN, db.rows + [row], k)
  {
    StageFacts(db, told, k);
    TellsRows(db, told, k);
    NewRowTold(db, told, k, h, b);
    assert db.rows[k].work == told[k].work;
    hide *;
    AcceptedWrites(OPEN, db, h);
    InsertShape(OPEN, db, k, h);
    InsertInactiveClean(OPEN, db, k, h);
  }

  /** A header whose row does not outwork the tip waits inactive. */
  lemma {:induction false} Waits(db: Db, told: seq<Told>, k: nat, h: Header, b: Option<nat>)
    requires Stage(db, told, k) && New(told, h, b) && (b.Some? ==> WorkOn(told, h, b) <= told[k].work)
    ensures Allowed(All(), db, InsertCall(h, 9)) && Inv(All(), OPEN, db) && RunsThrough(All(), OPEN, db, InsertCall(h, 9))
    ensures Stage(After(All(), OPEN, db, InsertCall(h, 9)), told + [Told(h, b, WorkOn(told, h, b))], k)
  {
    var row := Row(h, b, false, false, WorkOn(told, h, b));
    StageKnown(db, told, k, h, b);
    hide *;
    WaitsOut(db, told, k, h, b);
    InsertedAll(db, told, k, h, [[Insert(row)]], Added(false, 0));
    RunAllOne(db, [Insert(row)]);
    TellsRows(db, told, k);
    TellsMore(db.rows, told, row);
    StageIs(Run(db, [Insert(row)]), told + [Told(h, b, WorkOn(told, h, b))], k);
  }

  lemma {:induction false} StageKnown(db: Db, told: seq<Told>, k: nat, h: Header, b: Option<nat>)
    requires Stage(db, told, k) && New(told, h, b)
    ensures h in All() && Inv(All(), OPEN, db) && k < |told + [Told(h, b, WorkOn(told, h, b))]|
  {
    hide Inv, Known, GoodAt, Tells;
  }

  lemma {:induction false} TellsExtended(t: seq<Row>, u: seq<Row>, told: seq<Told>, row: Row)
    requires Tells(t, told) && Extended(t, u, row)
    ensures Tells(u, told + [Told(row.h, row.link, row.work)])
  {
  }

  lemma {:induction false} TellsFlags(t: seq<Row>, u: seq<Row>, told: seq<Told>)
    requires Tells(t, told) && SameButFlags(t, u)
    ensures Tells(u, told)
  {
  }

  lemma {:induction false} RowToo(t: seq<Row>, h: Header, b: Option<nat>, work: nat)
    requires NewRow(OPEN, t, h, false) == Row(h, b, false, false, work)
    ensures NewRow(OPEN, t, h, true) == Row(h, b, true, false, work)
  {
  }

  lemma {:induction false} WorkOnIs(told: seq<Told>, h: Header, b: nat)
    requires b < |told|
    ensures WorkOn(told, h, Some(b)) == told[b].work + h.bits + 1
  {
  }

  lemma {:induction false} OnTipRow(db: Db, told: seq<Told>, k: nat, h: Header)
    requires Stage(db, told, k) && k < |told| && told[k].h.hash == h.prev
    ensures k < |db.rows| && h.prev == db.rows[k].h.hash && db.rows[k].work == told[k].work
    ensures db.rows[k].work < told[k].work + h.bits + 1
  {
    TellsRows(db, told, k);
    hide Stage;
  }

  lemma {:induction false} ExtendsOut(db: Db, told: seq<Told>, k: nat, h: Header, work: nat)
    requires Stage(db, told, k) && k < |told| && New(told, h, Some(k)) && work == told[k].work + h.bits + 1
    ensures Sound(Heads(db.rows)) && Admissible(Heads(db.rows), h)
    ensures var row := Row(h, Some(k), true, false, work);
            && InsertHeader(OPEN, db, h) == Outcome([Extension(row)], Added(true, 0))
            && GoodAt(OPEN, Run(db, Extension(row)).rows, |db.rows|)
            && Extended(db.rows, Run(db, Extension(row)).rows, row)
  {
    hide *;
    StageFacts(db, told, k);
    NewInside(told, h, Some(k));
    OnTipRow(db, told, k, h);
    WorkOnIs(told, h, k);
    NewRowTold(db, told, k, h, Some(k));
    RowToo(db.rows, h, Some(k), work);
    AcceptedWrites(OPEN, db, h);
    InsertShape(OPEN, db, k, h);
    InsertExtensionClean(OPEN, db, k, h);
  }

  /** A header on the tip extends it. */
  lemma {:induction false} Extends(db: Db, told: seq<Told>, k: nat, h: Header, row: Told)
    requires Stage(db, told, k) && k < |told| && New(told, h, Some(k)) && row == Told(h, Some(k), told[k].work + h.bits + 1)
    ensures Allowed(All(), db, InsertCall(h, 9)) && Inv(All(), OPEN, db) && RunsThrough(All(), OPEN, db, InsertCall(h, 9))
    ensures Stage(After(All(), OPEN, db, InsertCall(h, 9)), told + [row], |told|)
  {
    var stored := Row(h, Some(k), true, false, row.work);
    StageKnown(db, told, k, h, Some(k));
    StageLength(db, told, k);
    hide *;
    ExtendsOut(db, told, k, h, row.work);
    InsertedAll(db, told, k, h, [Extension(stored)], Added(true, 0));
    RunAllOne(db, Extension(stored));
    TellsRows(db, told, k);
    TellsExtended(db.rows, Run(db, Extension(stored)).rows, told, stored);
    StageIs(Run(db, Extension(stored)), told + [row], |told|);
  }

  /** A row whose stored ancestry holds the tip meets it. */
  lemma {:induction false} MeetsTip(hs: seq<Header>, n: nat, k: nat)
    requires Sound(hs) && n < |hs| && k < |hs| && k in Path(hs, n) && hs[n].height <= 400
    ensures CommonAncestor(hs, n, k) == Some(k)
  {
    PathAt(hs, n, k);
    PathSelf(hs, k);
    forall d: nat | d < |hs| && Common(hs, n, k, d) ensures hs[d].height <= hs[k].height { PathAt(hs, k, d); }
    CommonAncestorExact(hs, n, k, k);
  }

  /** The rows have a common ancestor the reorg walk finds. */
  ghost predicate MeetsAt(t: seq<Row>, n: nat, k: nat) {
    Sound(Heads(t)) && n < |t| && k < |t| && CommonAncestor(Heads(t), n, k).Some?
  }

  lemma {:induction false} ReorgTxs(db: Db, n: nat, k: nat)
    requires Sound(Heads(db.rows)) && n < |db.rows| && k < |db.rows|
    ensures |ReorgTo(db, n, k).txs| <= 2
    ensures MeetsAt(db.rows, n, k) ==> ReorgTo(db, n, k).result != NoAncestor
  {
    hide Sound, Heads, CommonAncestor, CountActiveAbove, ReorgBatch, TipMove;
  }

  /** The header's row outworks the tip from off it. */
  ghost predicate Outworks(told: seq<Told>, k: nat, h: Header, b: nat, row: Row) {
    && New(told, h, Some(b)) && b < |told| && k < |told| && b != k
    && row == Row(h, Some(b), false, false, told[b].work + h.bits + 1) && told[k].work < row.work
  }

  lemma {:induction false} OutworksParts(told: seq<Told>, k: nat, h: Header, b: nat, row: Row)
    requires Outworks(told, k, h, b, row)
    ensures New(told, h, Some(b)) && b < |told| && k < |told| && b != k && row.work == told[b].work + h.bits + 1
    ensures row.h == h && row.link == Some(b) && row == Row(h, Some(b), false, false, row.work) && told[k].work < row.work
  {
    hide New;
  }

  lemma {:induction false} TipWork(db: Db, told: seq<Told>, k: nat)
    requires Stage(db, told, k) && k < |told|
    ensures k < |db.rows| == |told| && db.rows[k].work == told[k].work
  {
    TellsRows(db, told, k);
    hide Stage;
  }

  lemma {:induction false} WinsOut(db: Db, told: seq<Told>, k: nat, h: Header, b: nat, row: Row, db1: Db)
    requires Stage(db, told, k) && Outworks(told, k, h, b, row) && db1 == Run(db, [Insert(row)])
    ensures Sound(Heads(db.rows)) && Admissible(Heads(db.rows), h) && k < |db.rows| == |told|
    ensures db1.rows == db.rows + [row] && GoodAt(OPEN, db1.rows, k) && LinksTrue(db1.rows) && Sound(Heads(db1.rows))
    ensures InsertHeader(OPEN, db, h) ==
              Outcome([[Insert(row)]] + ReorgTo(db1, |told|, k).txs, ReorgTo(db1, |told|, k).result)
  {
    hide *;
    OutworksParts(told, k, h, b, row);
    WorkOnIs(told, h, b);
    StageFacts(db, told, k);
    NewRowTold(db, told, k, h, Some(b));
    TipWork(db, told, k);
    NotOnTip(db, told, k, h, b);
    AcceptedWrites(OPEN, db, h);
    InsertShape(OPEN, db, k, h);
    InsertInactiveClean(OPEN, db, k, h);
  }

  /** The store after a row is appended and the tip moved onto it. */
  lemma {:induction false} WinsAfter(db: Db, told: seq<Told>, k: nat, row: Row, db1: Db)
    requires Tells(db.rows, told) && db1 == Run(db, [Insert(row)]) && db1.rows == db.rows + [row]
    requires GoodAt(OPEN, db1.rows, k) && LinksTrue(db1.rows) && Sound(Heads(db1.rows)) && k < |db.rows|
    requires MeetsAt(db1.rows, |db.rows|, k)
    ensures |ReorgTo(db1, |db.rows|, k).txs| <= 2 && ReorgTo(db1, |db.rows|, k).result != NoAncestor
    ensures var u := RunAll(db, [[Insert(row)]] + ReorgTo(db1, |db.rows|, k).txs).rows;
            Tells(u, told + [Told(row.h, row.link, row.work)]) && GoodAt(OPEN, u, |db.rows|)
  {
    hide *;
    ReorgTxs(db1, |db.rows|, k);
    ReorgLands(OPEN, db1, k, |db.rows|);
    RunAllCons(db, [Insert(row)], ReorgTo(db1, |db.rows|, k).txs);
    TellsMore(db.rows, told, row);
    TellsFlags(db1.rows, RunAll(db1, ReorgTo(db1, |db.rows|, k).txs).rows, told + [Told(row.h, row.link, row.work)]);
  }

  lemma {:induction false} WinsTxs(db: Db, told: seq<Told>, k: nat, h: Header, b: nat, row: Row)
    returns (txs: seq<seq<Stmt>>, result: Result)
    requires Stage(db, told, k) && Outworks(told, k, h, b, row) && MeetsAt(db.rows + [row], |told|, k)
    ensures Sound(Heads(db.rows)) && Admissible(Heads(db.rows), h)
    ensures InsertHeader(OPEN, db, h) == Outcome(txs, result) && |txs| <= 9 && result != NoAncestor
    ensures Tells(RunAll(db, txs).rows, told + [Told(row.h, row.link, row.work)])
    ensures GoodAt(OPEN, RunAll(db, txs).rows, |told|)
  {
    hide *;
    var db1 := Run(db, [Insert(row)]);
    TellsRows(db, told, k);
    WinsOut(db, told, k, h, b, row, db1);
    WinsAfter(db, told, k, row, db1);
    txs := [[Insert(row)]] + ReorgTo(db1, |told|, k).txs;
    result := ReorgTo(db1, |told|, k).result;
  }

  /** A header off the tip that outworks it takes the tip through the reorg. */
  lemma {:induction false} Wins(db: Db, told: seq<Told>, k: nat, h: Header, b: nat, row: Row)
    requires Stage(db, told, k) && Outworks(told, k, h, b, row) && MeetsAt(db.rows + [row], |told|, k)
    ensures Allowed(All(), db, InsertCall(h, 9)) && Inv(All(), OPEN, db) && RunsThrough(All(), OPEN, db, InsertCall(h, 9))
    ensures Stage(After(All(), OPEN, db, InsertCall(h, 9)), told + [Told(row.h, row.link, row.work)], |told|)
  {
    hide *;
    OutworksParts(told, k, h, b, row);
    StageKnown(db, told, k, h, Some(b));
    var txs, result := WinsTxs(db, told, k, h, b, row);
    InsertedAll(db, told, k, h, txs, result);
    StageIs(RunAll(db, txs), told + [Told(row.h, row.link, row.work)], |told|);
  }

  lemma {:induction false} NotOnTip(db: Db, told: seq<Told>, k: nat, h: Header, b: nat)
    requires Stage(db, told, k) && New(told, h, Some(b)) && b != k
    ensures k < |db.rows| && h.prev != db.rows[k].h.hash
  {
    StageFacts(db, told, k);
    hide Stage, Known, Sound, GoodAt;
    SoundPair(Heads(db.rows), b, k);
  }

  // ── The relink ───────────────────────────────────────────────────────────

  /** Row `i`, stored over row `q`, may be relinked without moving the tip `k`. */
  ghost predicate Orphan(told: seq<Told>, k: nat, i: nat, q: nat) {
    && i < |told| && q < |told| && k < |told| && told[q].h.hash == told[i].h.prev && told[i].h.prev != ZERO_HASH
    && 0 < told[i].h.height && told[i].h.bits == told[i].h.time && (i == k || told[q].work + told[i].h.bits + 1 <= told[k].work)
  }

  lemma {:induction false} OrphanFacts(db: Db, told: seq<Told>, k: nat, i: nat, q: nat)
    requires Stage(db, told, k) && Orphan(told, k, i, q)
    ensures Sound(Heads(db.rows)) && i < |db.rows| && q < |db.rows| && k < |db.rows|
    ensures Find(Heads(db.rows), told[i].h.hash) == Some(i) && Parent(Heads(db.rows), i) == Some(q)
    ensures db.rows[i].h == told[i].h && db.rows[i].h.height == db.rows[q].h.height + 1
    ensures db.rows[q].work == told[q].work && db.rows[k].work == told[k].work
  {
    StageFacts(db, told, k);
    ToldHash(db, told, k, i);
    hide Sound, Known, GoodAt;
    ParentIs(Heads(db.rows), i, q);
    SoundPair(Heads(db.rows), i, q);
  }

  lemma {:induction false} RelinkedOut(db: Db, told: seq<Told>, k: nat, i: nat, q: nat)
    requires Stage(db, told, k) && Orphan(told, k, i, q)
    ensures Sound(Heads(db.rows)) && i < |db.rows| && q < |db.rows|
    ensures RelinkOrphan(OPEN, db, told[i].h.hash) == Outcome([RelinkTx(OPEN, db.rows, i, q)], Added(false, 0))
    ensures GoodAt(OPEN, Run(db, RelinkTx(OPEN, db.rows, i, q)).rows, k)
  {
    StageFacts(db, told, k);
    OrphanFacts(db, told, k, i, q);
    OpenContext(LoadWindow(db.rows, q, OPEN.depth(db.rows[q].h.height)), db.rows[i].h);
    hide Sound, Heads, Known, GoodAt, Stage, LoadWindow, CheckContext, RelinkOrphan, RelinkTx, Run, ReorgTo, Find, Parent, ChainTip;
    RelinkWrites(OPEN, db, told[i].h.hash, i, q);
    RelinkShape(OPEN, db, k, told[i].h.hash);
    RelinkEffect(OPEN, db, i, q);
    RelinkTxClean(OPEN, db, k, i, q);
  }

  lemma {:induction false} RelinkedAll(db: Db, told: seq<Told>, k: nat, hash: Hash, tx: seq<Stmt>)
    requires Stage(db, told, k) && Sound(Heads(db.rows))
    requires RelinkOrphan(OPEN, db, hash) == Outcome([tx], Added(false, 0))
    ensures Allowed(All(), db, RelinkCall(hash, 9)) && Inv(All(), OPEN, db)
    ensures RunsThrough(All(), OPEN, db, RelinkCall(hash, 9))
    ensures After(All(), OPEN, db, RelinkCall(hash, 9)) == Run(db, tx) && Inv(All(), OPEN, Run(db, tx))
  {
    StageInv(db, told, k);
    hide *;
    RunAllOne(db, tx);
    RelinkRuns(All(), OPEN, db, hash, [tx], Added(false, 0));
  }

  lemma {:induction false} TellsRelinked(db: Db, told: seq<Told>, i: nat, q: nat)
    requires Tells(db.rows, told) && i < |told| && q < |told|
    ensures Tells(Run(db, RelinkTx(OPEN, db.rows, i, q)).rows, told[i := Told(told[i].h, Some(q), told[q].work + told[i].h.bits + 1)])
  {
    RelinkEffect(OPEN, db, i, q);
    hide Run, Heads;
  }

  lemma {:induction false} Relinks(db: Db, told: seq<Told>, k: nat, i: nat, q: nat)
    requires Stage(db, told, k) && Orphan(told, k, i, q)
    ensures var call := RelinkCall(told[i].h.hash, 9);
            && Allowed(All(), db, call) && Inv(All(), OPEN, db) && RunsThrough(All(), OPEN, db, call)
            && Stage(After(All(), OPEN, db, call), told[i := Told(told[i].h, Some(q), told[q].work + told[i].h.bits + 1)], k)
  {
    TellsRows(db, told, k);
    assert Orphan(told, k, i, q);
    assert k < |told[i := Told(told[i].h, Some(q), told[q].work + told[i].h.bits + 1)]|;
    hide Stage, Tells, GoodAt, Inv, Allowed, After, RunsThrough, RelinkTx, Run, RelinkOrphan, Known, Sound, Heads;
    RelinkedOut(db, told, k, i, q);
    RelinkedAll(db, told, k, told[i].h.hash, RelinkTx(OPEN, db.rows, i, q));
    TellsRelinked(db, told, i, q);
    StageIs(Run(db, RelinkTx(OPEN, db.rows, i, q)), told[i := Told(told[i].h, Some(q), told[q].work + told[i].h.bits + 1)], k);
  }

  lemma {:induction false} OpenFaults(links: seq<Link>, run: seq<Header>, t: seq<Row>)
    requires forall j :: 0 <= j < |run| ==> 0 < run[j].height && run[j].bits == run[j].time
    ensures ContextFault(OPEN, links, run, None, None, t).None?
    decreases |run|
  {
    if run != [] {
      OpenContext(links, run[0]);
      hide CheckContext, ServedAt;
      OpenFaults(links + [LinkOf(run[0])], run[1..], t);
    }
  }

  lemma {:induction false} OpenRun(t: seq<Row>, run: seq<Header>, q: nat)
    requires Sound(Heads(t)) && run != [] && Linked(run) && Find(Heads(t), run[0].prev) == Some(q)
    requires run[0].height == t[q].h.height + 1 && forall j :: 0 <= j < |run| ==> 0 < run[j].height && run[j].bits == run[j].time
    ensures JudgeRun(OPEN, t, run).None?
  {
    assert StoredCheckpointAbove(OPEN, t, run[0].height, ChainTip(t)).None?;
    OpenFaults(LoadWindow(t, q, WindowDepth(OPEN, run)), run, t);
    hide Sound, LoadWindow, ChainTip, ContextFault, Find, Heads, WindowDepth, Linked;
  }

  lemma {:induction false} ParentOnPath(hs: seq<Header>, a: nat, b: nat)
    requires Sound(hs) && a < |hs| && b < |hs| && hs[a].prev == hs[b].hash
    ensures forall i :: i in Path(hs, b) ==> i in Path(hs, a)
  {
    ParentIs(hs, a, b);
    PathCons(hs, a, b);
  }

  lemma {:induction false} StageKnows(db: Db, told: seq<Told>, k: nat)
    requires Stage(db, told, k)
    ensures Agree(All()) && AllIn(All(), Heads(db.rows)) && Inv(All(), OPEN, db)
  {
    StageFacts(db, told, k);
    hide Agree, AllIn, Heads, Inv, GoodAt, Tells;
  }

  lemma {:induction false} EndsParts(calls: seq<Call>, told: seq<Told>, k: nat)
    requires Ends(calls, told, k)
    ensures Inv(All(), OPEN, EMPTY) && AllRunThrough(All(), OPEN, EMPTY, calls)
    ensures Stage(Replay(All(), OPEN, EMPTY, calls), told, k)
  {
  }

  lemma {:induction false} EndsIs(calls: seq<Call>, told: seq<Told>, k: nat)
    requires Inv(All(), OPEN, EMPTY) && AllRunThrough(All(), OPEN, EMPTY, calls)
    requires Stage(Replay(All(), OPEN, EMPTY, calls), told, k)
    ensures Ends(calls, told, k)
  {
  }

  lemma {:induction false} EndsWaits(calls: seq<Call>, told: seq<Told>, k: nat, h: Header, b: Option<nat>, row: Told)
    requires Ends(calls, told, k) && k < |told| && New(told, h, b) && (b.Some? ==> WorkOn(told, h, b) <= told[k].work)
    requires row == Told(h, b, WorkOn(told, h, b))
    ensures Ends(calls + [InsertCall(h, 9)], told + [row], k)
  {
    hide *;
    EndsParts(calls, told, k);
    var db := Replay(All(), OPEN, EMPTY, calls);
    Waits(db, told, k, h, b);
    OneMore(EMPTY, calls, InsertCall(h, 9));
    EndsIs(calls + [InsertCall(h, 9)], told + [row], k);
  }

  lemma {:induction false} EndsExtends(calls: seq<Call>, told: seq<Told>, k: nat, h: Header, row: Told)
    requires Ends(calls, told, k) && k < |told| && New(told, h, Some(k)) && row == Told(h, Some(k), told[k].work + h.bits + 1)
    ensures Ends(calls + [InsertCall(h, 9)], told + [row], |told|)
  {
    hide *;
    EndsParts(calls, told, k);
    var db := Replay(All(), OPEN, EMPTY, calls);
    Extends(db, told, k, h, row);
    OneMore(EMPTY, calls, InsertCall(h, 9));
    EndsIs(calls + [InsertCall(h, 9)], told + [row], |told|);
  }

  lemma {:induction false} EndsRelinks(calls: seq<Call>, told: seq<Told>, k: nat, i: nat, q: nat, row: Told)
    requires Ends(calls, told, k) && Orphan(told, k, i, q) && i < |told| && q < |told|
    requires row == Told(told[i].h, Some(q), told[q].work + told[i].h.bits + 1)
    ensures Ends(calls + [RelinkCall(row.h.hash, 9)], told[i := row], k)
  {
    hide *;
    EndsParts(calls, told, k);
    var db := Replay(All(), OPEN, EMPTY, calls);
    Relinks(db, told, k, i, q);
    OneMore(EMPTY, calls, RelinkCall(row.h.hash, 9));
    EndsIs(calls + [RelinkCall(row.h.hash, 9)], told[i := row], k);
  }

  // ── Runs from an empty store ─────────────────────────────────────────────

  const FIRST := [Told(Main(0), None, 1)]

  lemma {:induction false} FirstInsert()
    ensures Sound(Heads(EMPTY.rows)) && Admissible(Heads(EMPTY.rows), Main(0)) && Main(0) in All() && Inv(All(), OPEN, EMPTY)
    ensures var row := Row(Main(0), None, true, false, 1);
            && InsertHeader(OPEN, EMPTY, Main(0)) == Outcome([Extension(row)], Added(true, 0))
            && GoodAt(OPEN, Run(EMPTY, Extension(row)).rows, 0) && Extended([], Run(EMPTY, Extension(row)).rows, row)
  {
    hide Run, Good, Path, Root, GoodAt, Vouched;
    AllAgree();
    EmptyIsGood(All(), OPEN);
    assert Heads(EMPTY.rows) == [] && Known(Main(0)) && Fits([], Main(0));
    var row := Row(Main(0), None, true, false, 1);
    assert NewRow(OPEN, EMPTY.rows, Main(0), true) == row;
    UnlinkedOnEmpty(OPEN, Main(0));
    ExtensionEffect(EMPTY, row);
    FirstRowIsClean(OPEN, Run(EMPTY, Extension(row)).rows, row);
  }

  lemma {:induction false} NothingRuns()
    requires Inv(All(), OPEN, EMPTY)
    ensures AllRunThrough(All(), OPEN, EMPTY, []) && Replay(All(), OPEN, EMPTY, []) == EMPTY && Tells([], [])
    ensures EMPTY.rows == []
  {
  }

  lemma {:induction false} FirstStage() returns (db: Db)
    ensures Inv(All(), OPEN, EMPTY) && Allowed(All(), EMPTY, InsertCall(Main(0), 9))
    ensures RunsThrough(All(), OPEN, EMPTY, InsertCall(Main(0), 9))
    ensures db == After(All(), OPEN, EMPTY, InsertCall(Main(0), 9)) && Stage(db, FIRST, 0)
  {
    var row := Row(Main(0), None, true, false, 1);
    assert [] + [Told(row.h, row.link, row.work)] == FIRST;
    hide *;
    FirstInsert();
    NothingRuns();
    InsertRuns(All(), OPEN, EMPTY, Main(0), [Extension(row)], Added(true, 0));
    RunAllOne(EMPTY, Extension(row));
    TellsExtended([], Run(EMPTY, Extension(row)).rows, [], row);
    db := Run(EMPTY, Extension(row));
    StageIs(db, FIRST, 0);
  }

  lemma {:induction false} EndsFirst()
    ensures Ends([InsertCall(Main(0), 9)], FIRST, 0)
  {
    var call := InsertCall(Main(0), 9);
    assert [] + [call] == [call];
    hide *;
    var db := FirstStage();
    NothingRuns();
    OneMore(EMPTY, [], call);
    EndsIs([call], FIRST, 0);
  }

  lemma {:induction false} MeetsIs(t: seq<Row>, n: nat, k: nat, c: nat)
    requires Sound(Heads(t)) && n < |t| && k < |t| && CommonAncestor(Heads(t), n, k) == Some(c)
    ensures MeetsAt(t, n, k)
  {
    hide Sound, Heads, CommonAncestor;
  }

  lemma {:induction false} StageLength(db: Db, told: seq<Told>, k: nat)
    requires Stage(db, told, k)
    ensures |db.rows| == |told|
  {
    TellsRows(db, told, k);
    hide Stage;
  }

  lemma {:induction false} ToldRow(db: Db, told: seq<Told>, k: nat, i: nat)
    requires Stage(db, told, k) && i < |told|
    ensures |db.rows| == |told| && db.rows[i].link == told[i].link && db.rows[i].work == told[i].work
  {
    TellsRows(db, told, k);
    hide Stage;
  }

  lemma {:induction false} Outworked(t: seq<Row>, k: nat, i: nat)
    requires ChainTip(t) == Some(k) && k < |t| && i < |t| && t[i].link.Some? && t[k].work < t[i].work
    ensures !TopLinked(t)
  {
    hide ChainTip;
    assert !LinkedBelow(t, k, None);
  }

  /** A header off the tip that outworks it. */
  lemma {:induction false} EndsWins(calls: seq<Call>, told: seq<Told>, k: nat, h: Header, b: nat, row: Told)
    requires Ends(calls, told, k) && Outworks(told, k, h, b, Row(h, Some(b), false, false, row.work))
    requires row == Told(h, Some(b), row.work)
    requires forall db: Db :: Stage(db, told, k) ==> MeetsAt(db.rows + [Row(h, Some(b), false, false, row.work)], |told|, k)
    ensures Ends(calls + [InsertCall(h, 9)], told + [row], |told|)
  {
    hide *;
    EndsParts(calls, told, k);
    var db := Replay(All(), OPEN, EMPTY, calls);
    Wins(db, told, k, h, b, Row(h, Some(b), false, false, row.work));
    OneMore(EMPTY, calls, InsertCall(h, 9));
    EndsIs(calls + [InsertCall(h, 9)], told + [row], |told|);
  }
}
