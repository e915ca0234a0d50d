/** Which headers the writers let in, in the terms of the rules alone: a new
    header, a relinked orphan, a run (src/storage.rs:554-630, 905-940, 1034-1166). */
module Admission {
  import opened Wrappers
  import opened Headers
  import opened HeaderTable
  import opened CleanStore
  import opened Live
  import opened Bulk
  import opened Rules
  import opened RunWindow

  // ── The ancestry a rule reads ────────────────────────────────────────────

  /** The headers of a path of rows, the oldest first. */
  function Backwards(hs: seq<Header>, rows: seq<nat>): (r: seq<Header>)
    requires forall k :: 0 <= k < |rows| ==> rows[k] < |hs|
    ensures |r| == |rows|
    ensures forall k :: 0 <= k < |rows| ==> r[|rows| - 1 - k] == hs[rows[k]]
  {
    seq(|rows|, k requires 0 <= k < |rows| => hs[rows[|rows| - 1 - k]])
  }

  /** The headers of the stored ancestry of row `q`, the oldest first. */
  ghost function Line(t: seq<Row>, q: nat): seq<Header>
    requires Sound(Heads(t)) && q < |t|
  {
    Backwards(Heads(t), Ancestry(t, q))
  }

  lemma {:induction false} BackwardsLinks(hs: seq<Header>, rows: seq<nat>)
    requires forall k :: 0 <= k < |rows| ==> rows[k] < |hs|
    ensures LinksOf(Backwards(hs, rows)) == Links(hs, rows)
  {
    var a, b := LinksOf(Backwards(hs, rows)), Links(hs, rows);
    forall k | 0 <= k < |rows| ensures a[k] == b[k] {
      var m := |rows| - 1 - k;
      assert Backwards(hs, rows)[|rows| - 1 - m] == hs[rows[m]] && b[|rows| - 1 - m] == LinkOf(hs[rows[m]]);
    }
  }

  lemma {:induction false} LineLinks(t: seq<Row>, q: nat)
    requires Sound(Heads(t)) && q < |t|
    ensures LinksOf(Line(t, q)) == AncestryLinks(t, q)
    ensures Line(t, q) != [] && Line(t, q)[|Line(t, q)| - 1] == t[q].h && OneApart(Line(t, q))
  {
    BackwardsLinks(Heads(t), Ancestry(t, q));
    AncestryConsecutive(t, q);
    var line, links := Line(t, q), AncestryLinks(t, q);
    assert line[|line| - 1 - 0] == Heads(t)[Ancestry(t, q)[0]];
    hide Sound, Ancestry, Heads, Backwards;
    forall k | 0 <= k < |line| ensures line[k].height == line[0].height + k {
      assert links[k].height == links[0].height + k && LinksOf(line)[k] == LinkOf(line[k]) && LinksOf(line)[0] == LinkOf(line[0]);
    }
  }

  // ── The fork rule ────────────────────────────────────────────────────────

  ghost predicate Holds(t: seq<Row>, hash: Hash) {
    exists k :: 0 <= k < |t| && t[k].h.hash == hash
  }

  /** Checkpoint `i` of a list lies above the height, at or below `top`, and its
      hash is stored. */
  ghost predicate BarsAt(list: seq<(nat, Hash)>, t: seq<Row>, height: nat, top: nat, i: nat) {
    i < |list| && height < list[i].0 <= top && Holds(t, list[i].1)
  }

  /** The listed height `c` bars a header at `height`. */
  ghost predicate Bars(p: Params, t: seq<Row>, height: nat, c: nat) {
    ChainTip(t).Some? && exists i: nat :: BarsAt(p.checkpoints, t, height, t[ChainTip(t).value].h.height, i) && p.checkpoints[i].0 == c
  }

  lemma {:induction false} FindHolds(t: seq<Row>, hash: Hash)
    ensures Find(Heads(t), hash).Some? <==> Holds(t, hash)
  {
    var r := Find(Heads(t), hash);
    if r.Some? { assert t[r.value].h.hash == hash; }
    if k: nat :| k < |t| && t[k].h.hash == hash { assert Heads(t)[k].hash == hash; }
  }

  /** The search from the top finds the highest of them. */
  lemma {:induction false} AboveExact(list: seq<(nat, Hash)>, t: seq<Row>, height: nat, top: nat) returns (i: nat)
    requires forall i, j :: 0 <= i < j < |list| ==> list[i].0 < list[j].0
    ensures var r := CheckpointAbove(list, Heads(t), height, top);
            && (r.Some? ==> BarsAt(list, t, height, top, i) && list[i].0 == r.value
                            && forall j: nat :: BarsAt(list, t, height, top, j) ==> j <= i)
            && (r.None? ==> forall j: nat :: !BarsAt(list, t, height, top, j))
    decreases |list|
  {
    i := 0;
    if list != [] {
      var n := |list| - 1;
      FindHolds(t, list[n].1);
      hide Heads, Find, Holds;
      if height < list[n].0 {
        if list[n].0 <= top && Holds(t, list[n].1) {
          i := n;
        } else {
          i := AboveExact(list[..n], t, height, top);
          forall j: nat | BarsAt(list, t, height, top, j) ensures BarsAt(list[..n], t, height, top, j) { }
          assert BarsAt(list[..n], t, height, top, i) ==> BarsAt(list, t, height, top, i);
        }
      }
    }
  }

  /** The fork rule answers the highest such checkpoint, and none exactly when
      there is none. */
  lemma {:induction false} ForkExact(p: Params, t: seq<Row>, height: nat)
    requires p.Ascending()
    ensures var r := StoredCheckpointAbove(p, t, height, ChainTip(t));
            && (r.None? <==> forall c: nat :: !Bars(p, t, height, c))
            && (r.Some? ==> Bars(p, t, height, r.value) && forall c: nat :: Bars(p, t, height, c) ==> c <= r.value)
  {
    if ChainTip(t).Some? {
      var top := t[ChainTip(t).value].h.height;
      var i := AboveExact(p.checkpoints, t, height, top);
      hide CheckpointAbove, ChainTip, Holds, Heads;
      var r := StoredCheckpointAbove(p, t, height, ChainTip(t));
      forall j: nat | BarsAt(p.checkpoints, t, height, top, j) ensures Bars(p, t, height, p.checkpoints[j].0) { }
      forall c: nat | Bars(p, t, height, c) ensures r.Some? && c <= r.value {
        var j: nat :| BarsAt(p.checkpoints, t, height, top, j) && p.checkpoints[j].0 == c;
      }
    }
  }

  // ── One header ───────────────────────────────────────────────────────────

  /** The header stands on row `q`, one above it. */
  ghost predicate StandsOnRow(t: seq<Row>, h: Header, q: nat) {
    q < |t| && h.prev != ZERO_HASH && t[q].h.hash == h.prev && h.height == t[q].h.height + 1
  }

  /** Nothing listed bars the header, and it meets the rules over the stored
      ancestry of row `q`. */
  ghost predicate Admits(p: Params, t: seq<Row>, q: nat, h: Header)
    requires Sound(Heads(t)) && q < |t| && 0 < h.height
  {
    (forall c: nat :: !Bars(p, t, h.height, c)) && Obeys(p, Line(t, q), h)
  }

  /** The fault of the first rule the header breaks, the fork rule first. */
  ghost predicate TurnsAway(p: Params, t: seq<Row>, q: nat, h: Header, fault: Fault)
    requires Sound(Heads(t)) && q < |t| && 0 < h.height
  {
    || (fault.ForkPriorToCheckpoint? && HighestBar(p, t, h.height, fault.checkpoint))
    || ((forall c: nat :: !Bars(p, t, h.height, c)) && Breaks(p, Line(t, q), h, fault))
  }

  ghost predicate HighestBar(p: Params, t: seq<Row>, height: nat, c: nat) {
    Bars(p, t, height, c) && forall d: nat :: Bars(p, t, height, d) ==> d <= c
  }

  lemma {:induction false} ParentIsRow(t: seq<Row>, h: Header, q: nat)
    requires Sound(Heads(t)) && StandsOnRow(t, h, q)
    ensures ParentOf(Heads(t), h) == Some(q)
  {
    FindIs(Heads(t), q, h.prev);
  }

  lemma {:induction false} ContextOver(p: Params, t: seq<Row>, q: nat, h: Header)
    requires Sound(Heads(t)) && q < |t| && h.height == t[q].h.height + 1 && p.Ascending()
    ensures var r := CheckContext(p, LoadWindow(t, q, p.depth(t[q].h.height)), h);
            && (r.None? <==> Obeys(p, Line(t, q), h))
            && forall fault :: r == Some(fault) <==> Breaks(p, Line(t, q), h, fault)
  {
    hide *;
    LiveWindowIsEnough(p, t, q, h);
    LineLinks(t, q);
    ContextExact(p, Line(t, q), h);
  }

  lemma {:induction false} JudgedIs(p: Params, t: seq<Row>, h: Header, q: nat)
    requires Sound(Heads(t)) && ParentOf(Heads(t), h) == Some(q) && q < |t| && h.height == t[q].h.height + 1
    ensures var above := StoredCheckpointAbove(p, t, h.height, ChainTip(t));
            Judge(p, t, h) == if above.Some? then (Some(ForkPriorToCheckpoint(above.value)), false)
                              else (CheckContext(p, LoadWindow(t, q, p.depth(t[q].h.height)), h), true)
  {
    hide Sound, Heads, ParentOf, CheckContext, LoadWindow, ChainTip, StoredCheckpointAbove;
  }

  lemma {:induction false} JudgedExact(p: Params, t: seq<Row>, h: Header, q: nat)
    requires Sound(Heads(t)) && StandsOnRow(t, h, q) && p.Ascending()
    ensures Judge(p, t, h).0.None? <==> Admits(p, t, q, h)
    ensures Judge(p, t, h).0.None? ==> Judge(p, t, h).1
    ensures forall fault :: Judge(p, t, h).0 == Some(fault) <==> TurnsAway(p, t, q, h, fault)
  {
    hide Sound, Heads, ParentOf, CheckContext, LoadWindow, Line, Obeys, Breaks, Bars, ChainTip, StoredCheckpointAbove, Judge,
         StandsOnRow;
    StandsIn(t, h, q);
    ParentIsRow(t, h, q);
    JudgedIs(p, t, h, q);
    ContextOver(p, t, q, h);
    ForkExact(p, t, h.height);
  }

  lemma {:induction false} InsertJudged(p: Params, db: Db, h: Header)
    requires Sound(Heads(db.rows)) && Admissible(Heads(db.rows), h) && p.pow(h) && Find(Heads(db.rows), h.hash).None?
    ensures var out := InsertHeader(p, db, h);
            match Judge(p, db.rows, h).0
            case Some(fault) => out == Outcome([], Refused(fault))
            case None => out.txs != [] && !out.result.Refused?
  {
    InsertedFits(db, NewRow(p, db.rows, h, false));
    var db1 := Run(db, [Insert(NewRow(p, db.rows, h, false))]);
    var tip := ChainTip(db.rows);
    if tip.Some? { ReorgAnswers(db1, |db.rows|, tip.value); }
    hide Sound, Judge, Run, ChainTip, Find, Admissible, ReorgTo, Heads, NewRow, Extension;
  }

  /** A header of sufficient work that is new to the store and stands on a stored
      row is let in if and only if no held checkpoint bars it, its hash is the
      listed one wherever its height is listed, and the rule asks for exactly its
      bits over its stored ancestry; otherwise nothing is written and the answer
      is the fault of the first rule it breaks. */
  lemma {:induction false} InsertAdmits(p: Params, db: Db, h: Header, q: nat)
    requires Sound(Heads(db.rows)) && Admissible(Heads(db.rows), h) && p.Ascending()
    requires p.pow(h) && !Holds(db.rows, h.hash) && StandsOnRow(db.rows, h, q)
    ensures var out := InsertHeader(p, db, h);
            && (Admits(p, db.rows, q, h) <==> out.txs != [])
            && (Admits(p, db.rows, q, h) ==> WritesRow(p, db.rows, q, h, out.txs) && !out.result.Refused?)
            && forall fault :: out == Outcome([], Refused(fault)) <==> TurnsAway(p, db.rows, q, h, fault)
  {
    FindHolds(db.rows, h.hash);
    hide *;
    JudgedExact(p, db.rows, h, q);
    ParentIsRow(db.rows, h, q);
    StandsIn(db.rows, h, q);
    InsertJudged(p, db, h);
    if Judge(p, db.rows, h).0.None? { InsertWrites(p, db, h, q); }
  }

  lemma {:induction false} StandsIn(t: seq<Row>, h: Header, q: nat)
    requires StandsOnRow(t, h, q)
    ensures q < |t| && h.height == t[q].h.height + 1
  {
  }

  /** A header without the proof of work is refused, a stored hash is a duplicate,
      a height that is not one above the stored parent's is refused, in that
      order. */
  lemma {:induction false} InsertTurns(p: Params, db: Db, h: Header)
    requires Sound(Heads(db.rows)) && Admissible(Heads(db.rows), h)
    ensures !p.pow(h) ==> InsertHeader(p, db, h) == Outcome([], Refused(HighHash))
    ensures p.pow(h) && Holds(db.rows, h.hash) ==> InsertHeader(p, db, h) == Outcome([], Dupe)
  {
    FindHolds(db.rows, h.hash);
    hide Sound, Heads, Find, Judge, ChainTip, Admissible, Run, ReorgTo, NewRow, Holds;
  }

  /** A claimed height that is not one above the stored parent's is refused. */
  lemma {:induction false} BadHeightTurned(p: Params, t: seq<Row>, h: Header, q: nat)
    requires Sound(Heads(t)) && q < |t| && h.prev != ZERO_HASH && t[q].h.hash == h.prev
    requires h.height != t[q].h.height + 1
    ensures Judge(p, t, h) == (Some(BadPrev), false)
  {
    FindIs(Heads(t), q, h.prev);
    hide Sound, Heads, Find, LoadWindow, CheckContext, ChainTip, StoredCheckpointAbove;
  }

  /** A new header of sufficient work without a stored parent, in order: a held
      checkpoint above bars it; at a listed height it must carry the listed hash;
      at height 0, or naming no parent, it must be the genesis; at a listed height
      it is let in; elsewhere it waits as an orphan, unless the store has no tip. */
  ghost predicate AdmitsAlone(p: Params, t: seq<Row>, h: Header) {
    && (forall c: nat :: !Bars(p, t, h.height, c)) && Listed(p, h)
    && if h.height == 0 || h.prev == ZERO_HASH then h.height == 0 && h.hash == p.genesis
       else ChainTip(t).Some? || ListedHeight(p, h.height)
  }

  ghost predicate ListedHeight(p: Params, height: nat) {
    exists i :: 0 <= i < |p.checkpoints| && p.checkpoints[i].0 == height
  }

  ghost predicate TurnsAwayAlone(p: Params, t: seq<Row>, h: Header, fault: Fault) {
    || (fault.ForkPriorToCheckpoint? && HighestBar(p, t, h.height, fault.checkpoint))
    || ((forall c: nat :: !Bars(p, t, h.height, c))
        && (if !Listed(p, h) then fault == CheckpointMismatch
            else if h.height == 0 || h.prev == ZERO_HASH then (h.height != 0 || h.hash != p.genesis) && fault == BadGenesis
            else ChainTip(t).None? && !ListedHeight(p, h.height) && fault == PrevNotFound))
  }

  lemma {:induction false} ListedHeightExact(p: Params, height: nat)
    ensures p.CheckpointAt(height).Some? <==> ListedHeight(p, height)
  {
  }

  lemma {:induction false} AloneJudged(p: Params, t: seq<Row>, h: Header)
    requires Sound(Heads(t)) && p.Ascending() && (h.prev == ZERO_HASH || !Holds(t, h.prev))
    ensures Judge(p, t, h).0.None? <==> AdmitsAlone(p, t, h)
    ensures forall fault :: Judge(p, t, h).0 == Some(fault) <==> TurnsAwayAlone(p, t, h, fault)
  {
    FindHolds(t, h.prev);
    ForkExact(p, t, h.height);
    ListedExact(p, h);
    ListedHeightExact(p, h.height);
    hide Sound, Heads, Find, Bars, Holds, Listed, ListedHeight, ChainTip, StoredCheckpointAbove, LoadWindow, CheckContext;
  }

  lemma {:induction false} InsertAdmitsAlone(p: Params, db: Db, h: Header)
    requires Sound(Heads(db.rows)) && Admissible(Heads(db.rows), h) && p.Ascending()
    requires p.pow(h) && !Holds(db.rows, h.hash) && (h.prev == ZERO_HASH || !Holds(db.rows, h.prev))
    ensures var out := InsertHeader(p, db, h);
            && (AdmitsAlone(p, db.rows, h) <==> out.txs != [])
            && forall fault :: out == Outcome([], Refused(fault)) <==> TurnsAwayAlone(p, db.rows, h, fault)
  {
    FindHolds(db.rows, h.hash);
    hide *;
    AloneJudged(p, db.rows, h);
    InsertJudged(p, db, h);
  }

  lemma {:induction false} AloneRow(p: Params, t: seq<Row>, h: Header, active: bool)
    requires h.prev == ZERO_HASH || !Holds(t, h.prev)
    ensures NewRow(p, t, h, active) == Row(h, None, active, false, p.work(h.bits))
  {
    FindHolds(t, h.prev);
    hide Heads, Find, Holds;
  }

  lemma {:induction false} WaitsUnanchored(p: Params, t: seq<Row>, h: Header)
    requires Sound(Heads(t)) && (h.prev == ZERO_HASH || !Holds(t, h.prev))
    requires 0 < h.height && h.prev != ZERO_HASH && !ListedHeight(p, h.height)
    ensures !Judge(p, t, h).1
  {
    FindHolds(t, h.prev);
    ListedHeightExact(p, h.height);
    hide Sound, Heads, Find, Holds, ListedHeight, ChainTip, StoredCheckpointAbove, LoadWindow, CheckContext;
  }

  /** Such a header never moves a tip there is: at a height not listed it waits,
      inactive and unlinked, with its own work alone, however much that is. In a
      store without a tip it becomes the tip and the one active row. */
  lemma {:induction false} AloneWaits(p: Params, db: Db, h: Header)
    requires Sound(Heads(db.rows)) && Admissible(Heads(db.rows), h) && p.Ascending()
    requires p.pow(h) && !Holds(db.rows, h.hash) && (h.prev == ZERO_HASH || !Holds(db.rows, h.prev))
    requires AdmitsAlone(p, db.rows, h)
    ensures var out := InsertHeader(p, db, h);
            var work := p.work(h.bits);
            && (ChainTip(db.rows).None? ==> out == Outcome([Extension(Row(h, None, true, false, work))], Added(true, 0)))
            && (ChainTip(db.rows).Some? && 0 < h.height && h.prev != ZERO_HASH && !ListedHeight(p, h.height) ==>
                  out == Outcome([[Insert(Row(h, None, false, false, work))]], Added(false, 0)))
  {
    FindHolds(db.rows, h.hash);
    AloneJudged(p, db.rows, h);
    AloneRow(p, db.rows, h, true);
    AloneRow(p, db.rows, h, false);
    if 0 < h.height && h.prev != ZERO_HASH && !ListedHeight(p, h.height) { WaitsUnanchored(p, db.rows, h); }
    hide Sound, Judge, Run, ChainTip, Find, Admissible, ReorgTo, Heads, NewRow, Extension, AdmitsAlone, TurnsAwayAlone, Holds,
         ListedHeight;
  }

  /** An orphan whose parent came to be stored is linked if and only if its hash is
      the listed one wherever its height is listed and the rule asks for exactly
      its bits over its stored ancestry; otherwise nothing is written. */
  lemma {:induction false} RelinkAdmits(p: Params, db: Db, i: nat, q: nat)
    requires Sound(Heads(db.rows)) && p.Ascending() && i < |db.rows| && StandsOnRow(db.rows, db.rows[i].h, q)
    ensures var h := db.rows[i].h;
            var out := RelinkOrphan(p, db, h.hash);
            && (Obeys(p, Line(db.rows, q), h) <==> out.txs != [])
            && (Obeys(p, Line(db.rows, q), h) ==> out.txs[0] == RelinkTx(p, db.rows, i, q) && !out.result.Refused?)
            && forall fault :: out == Outcome([], Refused(fault)) <==> Breaks(p, Line(db.rows, q), h, fault)
  {
    var h := db.rows[i].h;
    FindIs(Heads(db.rows), i, h.hash);
    StandsIn(db.rows, h, q);
    ParentIs(Heads(db.rows), i, q);
    hide *;
    ContextOver(p, db.rows, q, h);
    if Obeys(p, Line(db.rows, q), h) {
      RelinkWrites(p, db, h.hash, i, q);
    } else {
      RelinkFault(p, db, h.hash, i, q);
    }
  }

  lemma {:induction false} RelinkFault(p: Params, db: Db, hash: Hash, i: nat, q: nat)
    requires Sound(Heads(db.rows)) && i < |db.rows| && q < |db.rows|
    requires Find(Heads(db.rows), hash) == Some(i) && Parent(Heads(db.rows), i) == Some(q)
    requires db.rows[i].h.height == db.rows[q].h.height + 1
    requires CheckContext(p, LoadWindow(db.rows, q, p.depth(db.rows[q].h.height)), db.rows[i].h).Some?
    ensures RelinkOrphan(p, db, hash) ==
              Outcome([], Refused(CheckContext(p, LoadWindow(db.rows, q, p.depth(db.rows[q].h.height)), db.rows[i].h).value))
  {
    hide Sound, LoadWindow, CheckContext, Run, ChainTip, Find, Parent, RelinkTx, ReorgTo, Heads;
  }

  // ── A run ────────────────────────────────────────────────────────────────

  /** The header is the newest active row at its height. */
  ghost predicate ServedThere(t: seq<Row>, h: Header) {
    exists i :: 0 <= i < |t| && t[i].active && t[i].h == h
      && forall j :: i < j < |t| && t[j].active ==> t[j].h.height != h.height
  }

  /** Header `j` of a run over an ancestry: at or below the vouched height, and at
      height 0, its listed hash alone; above, all the rules, over the ancestry and
      the headers of the run before it. Below a barring checkpoint it must be
      served already. */
  ghost predicate RunMember(p: Params, line: seq<Header>, run: seq<Header>, below: Option<nat>, vouched: Option<nat>,
                            t: seq<Row>, j: nat)
    requires j < |run|
  {
    && (below.Some? && run[j].height < below.value ==> ServedThere(t, run[j]))
    && if (vouched.Some? && run[j].height <= vouched.value) || run[j].height == 0 then Listed(p, run[j])
       else Obeys(p, line + run[..j], run[j])
  }

  lemma {:induction false} MemberNext(p: Params, line: seq<Header>, run: seq<Header>, below: Option<nat>, vouched: Option<nat>,
                                      t: seq<Row>, j: nat)
    requires 0 < j < |run|
    ensures RunMember(p, line, run, below, vouched, t, j)
       <==> RunMember(p, line + [run[0]], run[1..], below, vouched, t, j - 1)
  {
    assert line + run[..j] == line + [run[0]] + run[1..][..j - 1];
    hide Obeys, ServedThere, Listed;
  }

  /** The fault of a run's first header, if it has one. */
  ghost function FirstFault(p: Params, links: seq<Link>, h: Header, below: Option<nat>, vouched: Option<nat>, t: seq<Row>)
    : Option<Fault>
  {
    if below.Some? && h.height < below.value && !ServedAt(t, h) then Some(ForkPriorToCheckpoint(below.value))
    else if (vouched.Some? && h.height <= vouched.value) || h.height == 0 then p.CheckCheckpoint(h)
    else CheckContext(p, links, h)
  }

  lemma {:induction false} FaultFirst(p: Params, links: seq<Link>, run: seq<Header>, below: Option<nat>, vouched: Option<nat>,
                                      t: seq<Row>)
    requires run != []
    ensures ContextFault(p, links, run, below, vouched, t).None? <==>
              && FirstFault(p, links, run[0], below, vouched, t).None?
              && ContextFault(p, links + [LinkOf(run[0])], run[1..], below, vouched, t).None?
  {
    hide CheckContext, ServedAt;
  }

  lemma {:induction false} FirstExact(p: Params, line: seq<Header>, run: seq<Header>, below: Option<nat>, vouched: Option<nat>,
                                      t: seq<Row>)
    requires run != [] && p.Ascending() && OneApart(line + run)
    ensures FirstFault(p, LinksOf(line), run[0], below, vouched, t).None? <==> RunMember(p, line, run, below, vouched, t, 0)
  {
    assert line + run[..0] == line;
    forall i | 0 <= i < |line| ensures line[i].height == line[0].height + i { assert (line + run)[i] == line[i]; }
    ListedExact(p, run[0]);
    if 0 < run[0].height { ContextExact(p, line, run[0]); }
    hide CheckContext, Obeys, Listed, LinksOf;
  }

  ghost predicate RunObeys(p: Params, line: seq<Header>, run: seq<Header>, below: Option<nat>, vouched: Option<nat>, t: seq<Row>) {
    forall j :: 0 <= j < |run| ==> RunMember(p, line, run, below, vouched, t, j)
  }

  lemma {:induction false} MembersNext(p: Params, line: seq<Header>, run: seq<Header>, below: Option<nat>, vouched: Option<nat>,
                                       t: seq<Row>)
    requires run != []
    ensures RunObeys(p, line, run, below, vouched, t) <==>
              && RunMember(p, line, run, below, vouched, t, 0)
              && RunObeys(p, line + [run[0]], run[1..], below, vouched, t)
  {
    hide RunMember;
    if RunObeys(p, line, run, below, vouched, t) {
      forall j | 0 <= j < |run[1..]| ensures RunMember(p, line + [run[0]], run[1..], below, vouched, t, j) {
        MemberNext(p, line, run, below, vouched, t, j + 1);
      }
    }
    if RunMember(p, line, run, below, vouched, t, 0) && RunObeys(p, line + [run[0]], run[1..], below, vouched, t) {
      forall j | 0 <= j < |run| ensures RunMember(p, line, run, below, vouched, t, j) {
        if 0 < j {
          assert RunMember(p, line + [run[0]], run[1..], below, vouched, t, j - 1);
          MemberNext(p, line, run, below, vouched, t, j);
        }
      }
    }
  }

  /** The checks of a run over the growing window find no fault exactly when every
      header of it obeys. */
  lemma {:induction false} FaultExact(p: Params, line: seq<Header>, run: seq<Header>, below: Option<nat>, vouched: Option<nat>,
                                      t: seq<Row>)
    requires p.Ascending() && OneApart(line + run)
    ensures ContextFault(p, LinksOf(line), run, below, vouched, t).None? <==> RunObeys(p, line, run, below, vouched, t)
    decreases |run|
  {
    hide *;
    if run == [] {
      FaultNone(p, line, below, vouched, t);
    } else {
      assert line + run == line + [run[0]] + run[1..];
      LinksMore(line, run[0]);
      FaultExact(p, line + [run[0]], run[1..], below, vouched, t);
      FirstExact(p, line, run, below, vouched, t);
      MembersNext(p, line, run, below, vouched, t);
      FaultFirst(p, LinksOf(line), run, below, vouched, t);
    }
  }

  lemma {:induction false} FaultNone(p: Params, line: seq<Header>, below: Option<nat>, vouched: Option<nat>, t: seq<Row>)
    ensures ContextFault(p, LinksOf(line), [], below, vouched, t).None? && RunObeys(p, line, [], below, vouched, t)
  {
  }

  lemma {:induction false} LinksMore(line: seq<Header>, h: Header)
    ensures LinksOf(line) + [LinkOf(h)] == LinksOf(line + [h])
  {
  }

  /** Every header has the work it claims, and each is the parent of the next. */
  ghost predicate WorkedChain(p: Params, run: seq<Header>) {
    && (forall j :: 0 <= j < |run| ==> p.pow(run[j]))
    && forall j :: 0 < j < |run| ==> run[j].height == run[j - 1].height + 1 && run[j].prev == run[j - 1].hash
  }

  lemma {:induction false} ChainIsLinked(run: seq<Header>)
    ensures Linked(run) <==> forall j :: 0 < j < |run| ==> run[j].height == run[j - 1].height + 1 && run[j].prev == run[j - 1].hash
  {
    if Linked(run) {
      forall j | 0 < j < |run| ensures run[j].height == run[j - 1].height + 1 && run[j].prev == run[j - 1].hash {
        assert 0 <= j - 1 && (j - 1) + 1 < |run| && run[(j - 1) + 1] == run[j];
      }
    }
  }

  lemma {:induction false} LineApart(line: seq<Header>, run: seq<Header>)
    requires OneApart(line) && Linked(run) && (line != [] && run != [] ==> run[0].height == line[|line| - 1].height + 1)
    ensures OneApart(line + run)
  {
    forall i | 0 <= i < |line + run| ensures (line + run)[i].height == (line + run)[0].height + i {
      if |line| <= i { LinkedHeights(run, i - |line|); }
    }
  }

  /** The checkpoint that bars a run's first header. */
  ghost predicate BarIs(p: Params, t: seq<Row>, height: nat, below: Option<nat>) {
    if below.Some? then HighestBar(p, t, height, below.value) else forall c: nat :: !Bars(p, t, height, c)
  }

  lemma {:induction false} BarExact(p: Params, t: seq<Row>, height: nat)
    requires p.Ascending()
    ensures BarIs(p, t, height, StoredCheckpointAbove(p, t, height, ChainTip(t)))
    ensures forall below :: BarIs(p, t, height, below) ==> below == StoredCheckpointAbove(p, t, height, ChainTip(t))
  {
    ForkExact(p, t, height);
    hide StoredCheckpointAbove, ChainTip, Bars;
  }

  lemma {:induction false} WorkedIs(p: Params, run: seq<Header>)
    ensures WorkedChain(p, run) <==> Linked(run) && !AnyIdle(p, run)
  {
    ChainIsLinked(run);
    hide Linked;
  }

  ghost predicate AnyIdle(p: Params, run: seq<Header>) {
    exists i :: 0 <= i < |run| && !p.pow(run[i])
  }

  lemma {:induction false} RunJudgedIs(p: Params, t: seq<Row>, run: seq<Header>, q: nat)
    requires Sound(Heads(t)) && run != [] && q < |t| && Find(Heads(t), run[0].prev) == Some(q)
    ensures JudgeRun(p, t, run).None? <==>
              && !AnyIdle(p, run) && Linked(run) && run[0].height == t[q].h.height + 1
              && ContextFault(p, LoadWindow(t, q, WindowDepth(p, run)), run,
                              StoredCheckpointAbove(p, t, run[0].height, ChainTip(t)), None, t).None?
  {
    hide Sound, Heads, Find, Linked, ContextFault, LoadWindow, WindowDepth, ChainTip, StoredCheckpointAbove;
  }

  /** The checks over the loaded window, grown by the run. */
  lemma {:induction false} RunFault(p: Params, t: seq<Row>, run: seq<Header>, q: nat, below: Option<nat>)
    requires Sound(Heads(t)) && p.Ascending() && run != [] && q < |t| && Linked(run) && run[0].height == t[q].h.height + 1
    ensures ContextFault(p, LoadWindow(t, q, WindowDepth(p, run)), run, below, None, t).None?
       <==> RunObeys(p, Line(t, q), run, below, None, t)
  {
    hide *;
    BulkWindowIsEnough(p, t, q, run, below);
    LineLinks(t, q);
    LineApart(Line(t, q), run);
    FaultExact(p, Line(t, q), run, below, None, t);
  }

  /** A run over a stored row is accepted if and only if every header has its work,
      each is the parent of the next from one above that row on, and every header
      meets the rules over the stored ancestry and the run before it, served
      already where a held checkpoint bars it. */
  lemma {:induction false} RunAdmits(p: Params, t: seq<Row>, run: seq<Header>, q: nat, below: Option<nat>)
    requires Sound(Heads(t)) && p.Ascending() && run != [] && q < |t| && t[q].h.hash == run[0].prev
    requires BarIs(p, t, run[0].height, below)
    ensures JudgeRun(p, t, run).None? <==>
              && WorkedChain(p, run) && run[0].height == t[q].h.height + 1
              && RunObeys(p, Line(t, q), run, below, None, t)
  {
    HeadAt(t, q);
    hide *;
    FindIs(Heads(t), q, run[0].prev);
    WorkedIs(p, run);
    BarExact(p, t, run[0].height);
    RunJudgedIs(p, t, run, q);
    if Linked(run) && run[0].height == t[q].h.height + 1 { RunFault(p, t, run, q, below); }
  }

  /** The highest listed height inside the run's, if there is one. */
  ghost predicate Vouches(p: Params, run: seq<Header>, vouched: Option<nat>)
    requires run != []
  {
    if vouched.Some? then
      && run[0].height <= vouched.value <= run[|run| - 1].height && ListedHeight(p, vouched.value)
      && forall c: nat :: ListedHeight(p, c) && run[0].height <= c <= run[|run| - 1].height ==> c <= vouched.value
    else forall c: nat :: ListedHeight(p, c) ==> !(run[0].height <= c <= run[|run| - 1].height)
  }

  lemma {:induction false} InsideExact(list: seq<(nat, Hash)>, lo: nat, hi: nat)
    requires forall i, j :: 0 <= i < j < |list| ==> list[i].0 < list[j].0
    ensures var r := CheckpointInside(list, lo, hi);
            && (r.Some? ==> lo <= r.value <= hi && (exists i :: 0 <= i < |list| && list[i].0 == r.value)
                            && forall i :: 0 <= i < |list| && lo <= list[i].0 <= hi ==> list[i].0 <= r.value)
            && (r.None? ==> forall i :: 0 <= i < |list| ==> !(lo <= list[i].0 <= hi))
    decreases |list|
  {
    if list != [] {
      var n := |list| - 1;
      InsideExact(list[..n], lo, hi);
      assert forall i :: 0 <= i < n ==> list[..n][i] == list[i];
    }
  }

  lemma {:induction false} VouchesExact(p: Params, run: seq<Header>)
    requires p.Ascending() && run != []
    ensures Vouches(p, run, CheckpointInside(p.checkpoints, run[0].height, run[|run| - 1].height))
  {
    InsideExact(p.checkpoints, run[0].height, run[|run| - 1].height);
    hide CheckpointInside;
    var r := CheckpointInside(p.checkpoints, run[0].height, run[|run| - 1].height);
    if r.None? {
      forall c: nat | ListedHeight(p, c) ensures !(run[0].height <= c <= run[|run| - 1].height) {
        var i :| 0 <= i < |p.checkpoints| && p.checkpoints[i].0 == c;
      }
    }
  }

  /** A run that starts at height 0 or names no parent. */
  ghost predicate Starts(run: seq<Header>)
    requires run != []
  {
    run[0].height == 0 || run[0].prev == ZERO_HASH
  }

  lemma {:induction false} LooseJudgedIs(p: Params, t: seq<Row>, run: seq<Header>)
    requires Sound(Heads(t)) && run != [] && Find(Heads(t), run[0].prev).None?
    ensures var vouched := CheckpointInside(p.checkpoints, run[0].height, run[|run| - 1].height);
            JudgeRun(p, t, run).None? <==>
              && !AnyIdle(p, run) && Linked(run)
              && (if Starts(run) then p.CheckUnlinked(run[0], ChainTip(t).None?).0.None? else vouched.Some?)
              && ContextFault(p, [], run, StoredCheckpointAbove(p, t, run[0].height, ChainTip(t)),
                              if Starts(run) then Some(0) else vouched, t).None?
  {
    hide Sound, Heads, Find, Linked, ContextFault, LoadWindow, ChainTip, StoredCheckpointAbove, CheckpointInside;
  }

  lemma {:induction false} StartChecked(p: Params, h: Header, empty: bool)
    requires p.Ascending() && (h.height == 0 || h.prev == ZERO_HASH)
    ensures p.CheckUnlinked(h, empty).0.None? <==> h.height == 0 && h.hash == p.genesis && Listed(p, h)
  {
    ListedExact(p, h);
    hide Listed;
  }

  lemma {:induction false} LooseFault(p: Params, t: seq<Row>, run: seq<Header>, below: Option<nat>, vouched: Option<nat>)
    requires p.Ascending() && Linked(run)
    ensures ContextFault(p, [], run, below, vouched, t).None? <==> RunObeys(p, [], run, below, vouched, t)
  {
    assert LinksOf([]) == [];
    hide *;
    LineApart([], run);
    FaultExact(p, [], run, below, vouched, t);
  }

  /** A run whose parent is not stored is accepted if and only if every header has
      its work, each is the parent of the next, and either it starts with the
      genesis or a listed height inside it vouches for it: up to that height the
      listed hashes are met, above it all the rules over the run alone. */
  lemma {:induction false} LooseRunAdmits(p: Params, t: seq<Row>, run: seq<Header>, below: Option<nat>, vouched: Option<nat>)
    requires Sound(Heads(t)) && p.Ascending() && run != [] && !Holds(t, run[0].prev)
    requires BarIs(p, t, run[0].height, below) && Vouches(p, run, vouched)
    ensures JudgeRun(p, t, run).None? <==>
              && WorkedChain(p, run)
              && (if Starts(run) then run[0].height == 0 && run[0].hash == p.genesis && Listed(p, run[0]) else vouched.Some?)
              && RunObeys(p, [], run, below, if Starts(run) then Some(0) else vouched, t)
  {
    FindHolds(t, run[0].prev);
    hide *;
    WorkedIs(p, run);
    BarExact(p, t, run[0].height);
    VouchesExact(p, run);
    VouchedOne(p, run, vouched, CheckpointInside(p.checkpoints, run[0].height, run[|run| - 1].height));
    LooseJudgedIs(p, t, run);
    if Linked(run) { LooseFault(p, t, run, below, if Starts(run) then Some(0) else vouched); }
    LooseStart(p, t, run);
  }

  lemma {:induction false} LooseStart(p: Params, t: seq<Row>, run: seq<Header>)
    requires p.Ascending() && run != []
    ensures Starts(run) ==>
              (p.CheckUnlinked(run[0], ChainTip(t).None?).0.None?
               <==> run[0].height == 0 && run[0].hash == p.genesis && Listed(p, run[0]))
  {
    if Starts(run) { StartChecked(p, run[0], ChainTip(t).None?); }
    hide ChainTip, Listed;
  }

  lemma {:induction false} VouchedOne(p: Params, run: seq<Header>, a: Option<nat>, b: Option<nat>)
    requires run != [] && Vouches(p, run, a) && Vouches(p, run, b)
    ensures a == b
  {
    hide ListedHeight;
  }
}
