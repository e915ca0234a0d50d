/** When a push becomes active, in the terms of the table it finds, and what it
    heals: the repair the route exists for (src/storage.rs:1454-1597). */
module Heal {
  import opened Wrappers
  import opened Headers
  import opened HeaderTable
  import opened Live
  import opened Bulk
  import opened Growth
  import opened Push
  import opened PushClean
  import opened PushStored

  /** The header's row is active and is the one active row at its height. */
  ghost predicate Alone(t: seq<Row>, h: Header) {
    exists i :: 0 <= i < |t| && t[i].active && t[i].h == h
      && forall j :: 0 <= j < |t| && t[j].active && t[j].h.height == h.height ==> j == i
  }

  ghost predicate AllAlone(t: seq<Row>, run: seq<Header>) {
    forall j :: 0 <= j < |run| ==> Alone(t, run[j])
  }

  /** An active row at the next height names the header as its parent. */
  ghost predicate NamedAbove(t: seq<Row>, last: Header) {
    exists c :: 0 <= c < |t| && t[c].active && t[c].h.height == last.height + 1 && t[c].h.prev == last.hash
  }

  /** The row the header names is stored off the active chain. */
  ghost predicate OffChain(t: seq<Row>, first: Header) {
    0 < first.height && exists q :: 0 <= q < |t| && t[q].h.hash == first.prev && !t[q].active
  }

  /** The header starts a chain, or stands on an active row. */
  ghost predicate OnChain(t: seq<Row>, first: Header) {
    first.height == 0 || exists q :: 0 <= q < |t| && t[q].h.hash == first.prev && t[q].active
  }

  // ── The guards ───────────────────────────────────────────────────────────

  lemma {:induction false} AloneExact(t: seq<Row>, h: Header)
    requires Sound(Heads(t))
    ensures SoleActive(t, h) <==> Alone(t, h)
  {
    hide Sound;
    if SoleActive(t, h) {
      var i :| 0 <= i < |t| && t[i].active && t[i].h == h;
      forall j | 0 <= j < |t| && t[j].active && t[j].h.height == h.height ensures j == i {
        assert ActiveAt(t, j, h.height);
        SoundPair(Heads(t), i, j);
      }
    }
  }

  lemma {:induction false} AllAloneExact(t: seq<Row>, run: seq<Header>)
    requires Sound(Heads(t))
    ensures AllSole(t, run) <==> AllAlone(t, run)
  {
    hide Sound, SoleActive, Alone, Heads;
    forall j | 0 <= j < |run| ensures SoleActive(t, run[j]) <==> Alone(t, run[j]) { AloneExact(t, run[j]); }
  }

  lemma {:induction false} ChildExact(t: seq<Row>, last: Header)
    ensures ChildOf(t, last).Some? <==> NamedAbove(t, last)
  {
    if NamedAbove(t, last) {
      var c :| 0 <= c < |t| && t[c].active && t[c].h.height == last.height + 1 && t[c].h.prev == last.hash;
      assert IsChild(t, last, c);
    }
  }

  lemma {:induction false} ParentExact(t: seq<Row>, first: Header)
    requires Sound(Heads(t))
    ensures var parent := Find(Heads(t), first.prev);
            0 < first.height && parent.Some? && !t[parent.value].active <==> OffChain(t, first)
  {
    hide Sound;
    if OffChain(t, first) {
      var q :| 0 <= q < |t| && t[q].h.hash == first.prev && !t[q].active;
      HeadAt(t, q);
      FindIs(Heads(t), q, first.prev);
    }
  }

  /** A push is served exactly when each of its rows is already the one active row
      at its height. Else it is activated exactly when an active row names its
      last header, its parent is not stored off the chain and it has at most 400
      headers; else it changes nothing. */
  lemma {:induction false} DecidesExactly(db: Db, run: seq<Header>)
    requires Sound(Heads(db.rows)) && run != []
    ensures var t := db.rows;
            var (after, verdict) := CanonicalizePushed(db, run);
            && (verdict == Served <==> AllAlone(t, run))
            && (verdict == Activated <==>
                  !AllAlone(t, run) && NamedAbove(t, run[|run| - 1]) && !OffChain(t, run[0]) && |run| <= 400)
            && (verdict == StoredInactive ==> after == db)
  {
    AllAloneExact(db.rows, run);
    ChildExact(db.rows, run[|run| - 1]);
    ParentExact(db.rows, run[0]);
    hide Sound, Heads, AllSole, AllAlone, NamedAbove, OffChain, ChildOf, Find, Run, ActivationBatch, TipToHighest;
  }

  // ── What a decided push leaves ───────────────────────────────────────────

  lemma {:induction false} HeadsFromActive(t: seq<Row>, u: seq<Row>)
    requires SameActive(t, u)
    ensures Heads(u) == Heads(t)
  {
  }

  lemma {:induction false} ServedSame(db: Db, run: seq<Header>)
    requires Sound(Heads(db.rows)) && run != [] && CanonicalizePushed(db, run).1 == Served
    ensures SameActive(db.rows, CanonicalizePushed(db, run).0.rows)
  {
    var lo, hi := run[0].height, run[|run| - 1].height + 1;
    var d := Run(db, [LinkSpan(lo, hi)]);
    hide *;
    DecidesExactly(db, run);
    AllAloneExact(db.rows, run);
    ServedShape(db, run);
    LinkSpanEffect(db, lo, hi);
    TipToHighestEffect(d);
    SameTwice(db.rows, d.rows, TipToHighest(d).rows);
  }

  lemma {:induction false} SameTwice(t: seq<Row>, u: seq<Row>, v: seq<Row>)
    requires SameActive(t, u) && SameActive(u, v)
    ensures SameActive(t, v)
  {
    assert forall i {:trigger u[i]} {:trigger v[i]} :: 0 <= i < |t| ==> u[i].h == t[i].h;
  }

  lemma {:induction false} SameOnePerHeight(t: seq<Row>, u: seq<Row>)
    requires SameActive(t, u) && OnePerHeight(t)
    ensures OnePerHeight(u)
  {
  }

  lemma {:induction false} SameBroken(t: seq<Row>, u: seq<Row>, height: nat)
    requires SameActive(t, u) && !Broken(t, height)
    ensures !Broken(u, height)
  {
    if Broken(u, height) {
      var c: nat :| ActiveAt(u, c, height + 1)
                    && forall q: nat :: ActiveAt(u, q, height) ==> u[q].h.hash != u[c].h.prev;
      assert ActiveAt(t, c, height + 1);
      var q: nat :| ActiveAt(t, q, height) && t[q].h.hash == t[c].h.prev;
      assert ActiveAt(u, q, height);
    }
  }

  lemma {:induction false} ActivatedOnePerHeight(a: Db, b: Db, run: seq<Header>, c: nat)
    requires Sound(Heads(a.rows)) && run != [] && Linked(run) && c < |a.rows| && ActivatedTo(a, b, run, c)
    requires OnePerHeight(a.rows)
    ensures OnePerHeight(b.rows)
  {
    hide Sound, Linked;
    forall i, j | 0 <= i < |b.rows| && 0 <= j < |b.rows| && b.rows[i].active && b.rows[j].active
                  && b.rows[i].h.height == b.rows[j].h.height
      ensures i == j
    {
      assert b.rows[i].active == ActiveAfter(run, a.rows[i]) && b.rows[j].active == ActiveAfter(run, a.rows[j]);
      if run[0].height <= a.rows[i].h.height < run[0].height + |run| { SoundPair(Heads(a.rows), i, j); }
    }
  }

  /** No link is broken between the parent of the run and the row above it. */
  ghost predicate WholeOver(t: seq<Row>, run: seq<Header>)
    requires run != []
  {
    forall height: nat {:trigger Broken(t, height)} ::
      run[0].height <= height + 1 && height <= run[|run| - 1].height ==> !Broken(t, height)
  }

  /** Where each header of the run is the one active row at its height, nothing
      between its parent and the row above is broken. */
  lemma {:induction false} AloneLink(t: seq<Row>, run: seq<Header>, height: nat, c: nat)
    requires run != [] && Linked(run) && AllAlone(t, run) && OnePerHeight(t)
    requires NamedAbove(t, run[|run| - 1]) && OnChain(t, run[0]) && Sound(Heads(t))
    requires run[0].height <= height + 1 && height < run[0].height + |run| && ActiveAt(t, c, height + 1)
    ensures exists q: nat :: ActiveAt(t, q, height) && t[q].h.hash == t[c].h.prev
  {
    hide Sound, Linked, OnChain, AllAlone;
    var j := height + 1 - run[0].height;
    if j == 0 {
      assert Alone(t, run[0]) by { OneAlone(t, run, 0); }
      assert t[c].h == run[0];
      var q := ParentRow(t, run[0], c);
    } else {
      var q := AloneRow(t, run, j - 1, height);
      if j == |run| {
        LinkedHeights(run, |run| - 1);
        var d :| 0 <= d < |t| && t[d].active && t[d].h.height == run[|run| - 1].height + 1 && t[d].h.prev == run[|run| - 1].hash;
        assert d == c;
      } else {
        var i := AloneRow(t, run, j, height + 1);
        assert i == c;
        NextNames(run, j);
      }
      assert ActiveAt(t, q, height);
    }
  }

  lemma {:induction false} OneAlone(t: seq<Row>, run: seq<Header>, j: nat)
    requires AllAlone(t, run) && j < |run|
    ensures Alone(t, run[j])
  {
  }

  lemma {:induction false} NextNames(run: seq<Header>, j: nat)
    requires Linked(run) && 0 < j < |run|
    ensures run[j].prev == run[j - 1].hash
  {
    assert (j - 1) + 1 < |run| && run[(j - 1) + 1] == run[j];
  }

  lemma {:induction false} AloneRow(t: seq<Row>, run: seq<Header>, j: nat, height: nat) returns (i: nat)
    requires AllAlone(t, run) && Linked(run) && j < |run| && height == run[0].height + j
    ensures ActiveAt(t, i, height) && t[i].h == run[j]
    ensures forall c: nat :: ActiveAt(t, c, height) ==> c == i
  {
    LinkedHeights(run, j);
    OneAlone(t, run, j);
    hide Linked, AllAlone;
    i :| i < |t| && t[i].active && t[i].h == run[j]
         && forall j' :: 0 <= j' < |t| && t[j'].active && t[j'].h.height == run[j].height ==> j' == i;
  }

  lemma {:induction false} ParentRow(t: seq<Row>, first: Header, c: nat) returns (q: nat)
    requires Sound(Heads(t)) && OnChain(t, first) && c < |t| && t[c].h == first && 0 < first.height
    ensures ActiveAt(t, q, first.height - 1) && t[q].h.hash == first.prev
  {
    q :| q < |t| && t[q].h.hash == first.prev && t[q].active;
    HeadAt(t, q);
    HeadAt(t, c);
    SoundPair(Heads(t), c, q);
  }

  lemma {:induction false} AloneWhole(t: seq<Row>, run: seq<Header>)
    requires run != [] && Linked(run) && AllAlone(t, run) && OnePerHeight(t)
    requires NamedAbove(t, run[|run| - 1]) && OnChain(t, run[0]) && Sound(Heads(t))
    ensures WholeOver(t, run)
  {
    LinkedHeights(run, |run| - 1);
    hide Sound, Heads, Linked, AllAlone, OnePerHeight, NamedAbove, OnChain;
    forall height: nat | run[0].height <= height + 1 && height <= run[|run| - 1].height ensures !Broken(t, height) {
      if Broken(t, height) {
        var c: nat :| ActiveAt(t, c, height + 1)
                      && forall q: nat :: ActiveAt(t, q, height) ==> t[q].h.hash != t[c].h.prev;
        AloneLink(t, run, height, c);
      }
    }
  }

  lemma {:induction false} WholeStays(t: seq<Row>, u: seq<Row>, run: seq<Header>)
    requires run != [] && SameActive(t, u) && WholeOver(t, run)
    ensures WholeOver(u, run)
  {
    hide SameActive, Broken;
    forall height: nat | run[0].height <= height + 1 && height <= run[|run| - 1].height ensures !Broken(u, height) {
      SameBroken(t, u, height);
    }
  }

  lemma {:induction false} MendedIsWhole(t: seq<Row>, u: seq<Row>, run: seq<Header>)
    requires run != [] && Mended(t, u, run[0].height, run[|run| - 1].height)
    ensures WholeOver(u, run)
  {
    hide Broken;
  }

  lemma {:induction false} OnChainIsNotOff(t: seq<Row>, first: Header)
    requires Sound(Heads(t)) && OnChain(t, first)
    ensures !OffChain(t, first) && (first.height == 0 || Find(Heads(t), first.prev).Some?)
  {
    hide Sound;
    if 0 < first.height {
      var q :| 0 <= q < |t| && t[q].h.hash == first.prev && t[q].active;
      forall i | 0 <= i < |t| && t[i].h.hash == first.prev ensures i == q { SoundPair(Heads(t), i, q); }
      HeadAt(t, q);
      FindIs(Heads(t), q, first.prev);
    }
  }

  /** The repair: a stored run of at most 400 headers that starts the chain or
      stands on an active row, its last header named by the active row above, is
      served or activated. Afterwards each of its rows is the one active row at
      its height and no link is broken from its parent to the row above it. */
  lemma {:induction false} RepairHeals(db: Db, run: seq<Header>)
    requires Sound(Heads(db.rows)) && OnePerHeight(db.rows) && AllStored(db.rows, run)
    requires run != [] && Linked(run) && |run| <= 400
    requires NamedAbove(db.rows, run[|run| - 1]) && OnChain(db.rows, run[0])
    ensures var (after, verdict) := CanonicalizePushed(db, run);
            && verdict != StoredInactive
            && AllAlone(after.rows, run) && OnePerHeight(after.rows) && WholeOver(after.rows, run)
  {
    hide *;
    DecidesExactly(db, run);
    OnChainIsNotOff(db.rows, run[0]);
    var (after, verdict) := CanonicalizePushed(db, run);
    VerdictExact(db, run);
    CanonicalizeSound(db, run);
    AllAloneExact(after.rows, run);
    if AllAlone(db.rows, run) {
      ServedSame(db, run);
      SameOnePerHeight(db.rows, after.rows);
      AloneWhole(db.rows, run);
      WholeStays(db.rows, after.rows, run);
    } else {
      var c := ActivationFacts(db, run);
      ChildIsRow(db.rows, run[|run| - 1], c);
      ActivatedOnePerHeight(db, after, run, c);
      ActivationMends(db, run);
      MendedIsWhole(db.rows, after.rows, run);
    }
  }

  lemma {:induction false} ChildIsRow(t: seq<Row>, last: Header, c: nat)
    requires IsChild(t, last, c)
    ensures c < |t|
  {
  }

  lemma {:induction false} CanonicalizeSound(db: Db, run: seq<Header>)
    requires Sound(Heads(db.rows)) && Linked(run) && run != []
    ensures Sound(Heads(CanonicalizePushed(db, run).0.rows))
  {
    hide Sound, Heads, Run, ActivationBatch, TipToHighest, AllSole, ChildOf, ActivatedTo;
    var (after, verdict) := CanonicalizePushed(db, run);
    if verdict == Served {
      ServedSame(db, run);
      HeadsFromActive(db.rows, after.rows);
    } else if verdict == Activated {
      var c := ActivationFacts(db, run);
      ChildIsRow(db.rows, run[|run| - 1], c);
      ActivatedHeads(db, after, run, c);
    }
  }

  lemma {:induction false} ActivatedHeads(a: Db, b: Db, run: seq<Header>, c: nat)
    requires run != [] && c < |a.rows| && ActivatedTo(a, b, run, c)
    ensures Heads(b.rows) == Heads(a.rows)
  {
  }

  // ── The push as it is made ───────────────────────────────────────────────

  /** The rows of a run written again: none new, the active ones still active, one
      a height. */
  ghost predicate Settled(t: seq<Row>, u: seq<Row>) {
    && |u| == |t| && OnePerHeight(u)
    && forall i {:trigger u[i]} :: 0 <= i < |t| ==> u[i].h == t[i].h && (t[i].active ==> u[i].active)
  }

  lemma {:induction false} SettledOn(t: seq<Row>, u: seq<Row>, v: seq<Row>)
    requires Settled(t, u) && Settled(u, v)
    ensures Settled(t, v)
  {
    forall i | 0 <= i < |t| ensures v[i].h == t[i].h && (t[i].active ==> v[i].active) { assert u[i].h == t[i].h; }
  }

  lemma {:induction false} SettledHeads(t: seq<Row>, u: seq<Row>)
    requires Settled(t, u)
    ensures Heads(u) == Heads(t)
  {
  }

  lemma {:induction false} PlaceStored(t: seq<Row>, h: Header, work: nat)
    requires Sound(Heads(t)) && Stored(t, h) && OnePerHeight(t)
    ensures Settled(t, Place(t, h, work))
  {
    hide Sound;
    var i :| 0 <= i < |t| && t[i].h == h;
    HeadAt(t, i);
    FindIs(Heads(t), i, h.hash);
  }

  lemma {:induction false} StoredStays(t: seq<Row>, u: seq<Row>, run: seq<Header>)
    requires Settled(t, u) && AllStored(t, run)
    ensures AllStored(u, run)
  {
    forall j | 0 <= j < |run| ensures Stored(u, run[j]) {
      assert Stored(t, run[j]);
      var i :| 0 <= i < |t| && t[i].h == run[j];
      assert u[i].h == run[j];
    }
  }

  lemma {:induction false} StoredRest(t: seq<Row>, run: seq<Header>)
    requires AllStored(t, run) && run != []
    ensures Stored(t, run[0]) && AllStored(t, run[1..])
  {
    hide Stored;
  }

  lemma {:induction false} SettledSame(t: seq<Row>)
    requires OnePerHeight(t)
    ensures Settled(t, t)
  {
  }

  lemma {:induction false} SettledOne(t: seq<Row>, u: seq<Row>)
    requires Settled(t, u)
    ensures OnePerHeight(u)
  {
  }

  lemma {:induction false} PlaceRunStored(p: Params, t: seq<Row>, run: seq<Header>, work: nat)
    requires Sound(Heads(t)) && AllStored(t, run) && OnePerHeight(t)
    ensures Settled(t, PlaceRun(p, t, run, work))
    decreases |run|
  {
    hide *;
    if run == [] {
      PlaceRunNone(p, t, work);
      SettledSame(t);
    } else {
      var w := work + p.work(run[0].bits);
      var u := Place(t, run[0], w);
      StoredRest(t, run);
      PlaceRunNext(p, t, run, work);
      PlaceStored(t, run[0], w);
      SettledHeads(t, u);
      SettledOne(t, u);
      StoredStays(t, u, run[1..]);
      PlaceRunStored(p, u, run[1..], w);
      SettledOn(t, u, PlaceRun(p, t, run, work));
    }
  }

  lemma {:induction false} DupeStep(all: iset<Header>, p: Params, db: Db, run: seq<Header>)
    requires Agree(all) && AllIn(all, run) && AllIn(all, Heads(db.rows)) && Sound(Heads(db.rows)) && run != []
    requires p.pow(run[0]) && Stored(db.rows, run[0])
    ensures AllIn(all, run[1..]) && InsertEach(all, p, db, run) == InsertEach(all, p, db, run[1..])
  {
    AgreeAdmits(all, Heads(db.rows), run[0]);
    StoredFound(db.rows, run[0]);
    RestIn(all, run);
    hide Sound, Heads, Judge, Run, ReorgTo, NewRow, Admissible, Agree, AllIn, Stored, Find;
    assert InsertHeader(p, db, run[0]) == Outcome([], Dupe);
    RunAllNone(db);
  }

  lemma {:induction false} StoredFound(t: seq<Row>, h: Header)
    requires Stored(t, h)
    ensures Find(Heads(t), h.hash).Some?
  {
    var i :| 0 <= i < |t| && t[i].h == h;
    HeadAt(t, i);
  }

  lemma {:induction false} EachDupe(all: iset<Header>, p: Params, db: Db, run: seq<Header>)
    requires Agree(all) && AllIn(all, run) && AllIn(all, Heads(db.rows)) && Sound(Heads(db.rows))
    requires AllStored(db.rows, run) && forall j :: 0 <= j < |run| ==> p.pow(run[j])
    ensures InsertEach(all, p, db, run) == (db, Added(false, 0))
    decreases |run|
  {
    if run == [] {
      EachNone(all, p, db);
    } else {
      assert forall j :: 0 <= j < |run[1..]| ==> run[1..][j] == run[j + 1];
      hide *;
      StoredRest(db.rows, run);
      DupeStep(all, p, db, run);
      EachDupe(all, p, db, run[1..]);
    }
  }

  lemma {:induction false} EachNone(all: iset<Header>, p: Params, db: Db)
    requires Agree(all) && AllIn(all, []) && AllIn(all, Heads(db.rows)) && Sound(Heads(db.rows))
    ensures InsertEach(all, p, db, []) == (db, Added(false, 0))
  {
  }

  lemma {:induction false} JudgedWorked(p: Params, t: seq<Row>, run: seq<Header>)
    requires Sound(Heads(t)) && run != [] && JudgeRun(p, t, run).None?
    ensures Linked(run) && forall j :: 0 <= j < |run| ==> p.pow(run[j])
  {
    hide Sound, Heads, ContextFault, LoadWindow, ChainTip, StoredCheckpointAbove, CheckpointInside, WindowDepth;
  }

  /** A run whose rows are stored already is written back without a new row, and
      nothing active is taken off. */
  lemma {:induction false} StoredAgain(all: iset<Header>, p: Params, db: Db, run: seq<Header>)
    requires Agree(all) && AllIn(all, run) && AllIn(all, Heads(db.rows)) && Sound(Heads(db.rows))
    requires OnePerHeight(db.rows) && AllStored(db.rows, run) && run != [] && JudgeRun(p, db.rows, run).None?
    ensures var (mid, result) := InsertHeadersBatch(all, p, db, run);
            !Failed(result) && Settled(db.rows, mid.rows)
  {
    hide *;
    JudgedWorked(p, db.rows, run);
    BatchCases(all, p, db, run);
    EachDupe(all, p, db, run);
    InsertBulkPlaces(all, p, db, run);
    PlaceRunStored(p, db.rows, run, RunWork(db.rows, run));
    SettledSame(db.rows);
    AddedStands();
  }

  lemma {:induction false} AddedStands()
    ensures !Failed(Added(false, 0))
  {
  }

  lemma {:induction false} SettledStands(t: seq<Row>, u: seq<Row>, run: seq<Header>)
    requires Settled(t, u) && run != [] && NamedAbove(t, run[|run| - 1]) && OnChain(t, run[0])
    ensures NamedAbove(u, run[|run| - 1]) && OnChain(u, run[0])
  {
    var last := run[|run| - 1];
    var c :| 0 <= c < |t| && t[c].active && t[c].h.height == last.height + 1 && t[c].h.prev == last.hash;
    assert u[c].h == t[c].h && u[c].active;
    if 0 < run[0].height {
      var q :| 0 <= q < |t| && t[q].h.hash == run[0].prev && t[q].active;
      assert u[q].h == t[q].h && u[q].active;
    }
  }

  /** The same of the push as its caller makes it, in the terms of the store it
      finds, for every run the rules let in. */
  lemma {:induction false} PushHeals(all: iset<Header>, p: Params, db: Db, run: seq<Header>)
    requires Agree(all) && AllIn(all, run) && AllIn(all, Heads(db.rows)) && Sound(Heads(db.rows))
    requires OnePerHeight(db.rows) && AllStored(db.rows, run) && run != [] && JudgeRun(p, db.rows, run).None?
    requires |run| <= 400 && NamedAbove(db.rows, run[|run| - 1]) && OnChain(db.rows, run[0])
    ensures var (after, verdict) := IngestPushed(all, p, db, run);
            && verdict.Some? && verdict.value != StoredInactive
            && AllAlone(after.rows, run) && OnePerHeight(after.rows) && WholeOver(after.rows, run)
  {
    hide *;
    JudgedWorked(p, db.rows, run);
    StoredAgain(all, p, db, run);
    IngestIs(all, p, db, run);
    var mid := InsertHeadersBatch(all, p, db, run).0;
    SettledHeads(db.rows, mid.rows);
    SettledOne(db.rows, mid.rows);
    StoredStays(db.rows, mid.rows, run);
    SettledStands(db.rows, mid.rows, run);
    RepairHeals(mid, run);
  }

  // ── What a served push sets ──────────────────────────────────────────────

  /** The row a header names as its parent. */
  ghost predicate NamesRow(t: seq<Row>, h: Header, link: Option<nat>) {
    match link
    case Some(q) => q < |t| && t[q].h.hash == h.prev
    case None => forall q :: 0 <= q < |t| ==> t[q].h.hash != h.prev
  }

  /** A served push links the unlinked active rows from its first height to the
      height above its last, each to the row it names, and nothing else; the tip is
      the highest active row alone, the newest at that height. */
  lemma {:induction false} ServedLeaves(db: Db, run: seq<Header>, i: nat)
    requires Sound(Heads(db.rows)) && run != [] && i < |db.rows| && CanonicalizePushed(db, run).1 == Served
    ensures var t, u := db.rows, CanonicalizePushed(db, run).0.rows;
            && CanonicalizePushed(db, run).0.pending == db.pending
            && |u| == |t| && u[i].h == t[i].h && u[i].active == t[i].active && u[i].work == t[i].work
            && (if t[i].active && t[i].link.None? && run[0].height <= t[i].h.height <= run[|run| - 1].height + 1
                then NamesRow(t, t[i].h, u[i].link) else u[i].link == t[i].link)
            && (u[i].tip <==> t[i].active && forall j :: 0 <= j < |t| && t[j].active ==>
                  t[j].h.height < t[i].h.height || (t[j].h.height == t[i].h.height && j <= i))
  {
    var lo, hi := run[0].height, run[|run| - 1].height + 1;
    var t := db.rows;
    hide *;
    var d := Run(db, [LinkSpan(lo, hi)]);
    DecidesExactly(db, run);
    AllAloneExact(t, run);
    ServedShape(db, run);
    LinkSpanEffect(db, lo, hi);
    SpanLeaves(db, lo, hi, i);
    AnyActive(t, run);
    TopOfSame(t, d.rows, i);
    TipLeaves(d, i);
  }

  lemma {:induction false} SpanLeaves(db: Db, lo: nat, hi: nat, i: nat)
    requires i < |db.rows|
    ensures var t, u := db.rows, Run(db, [LinkSpan(lo, hi)]).rows;
            && |u| == |t| && u[i].h == t[i].h && u[i].active == t[i].active && u[i].work == t[i].work
            && if t[i].active && t[i].link.None? && lo <= t[i].h.height <= hi then NamesRow(t, t[i].h, u[i].link)
               else u[i].link == t[i].link
  {
    LinkSpanEffect(db, lo, hi);
    FoundNames(db.rows, db.rows[i].h);
    hide Run, NamesRow, Heads, Find;
  }

  lemma {:induction false} TipLeaves(d: Db, i: nat)
    requires Sound(Heads(d.rows)) && i < |d.rows| && HighestActive(d.rows).Some?
    ensures var u := TipToHighest(d);
            u.pending == d.pending && |u.rows| == |d.rows| && u.rows[i] == d.rows[i].(tip := HighestActive(d.rows) == Some(i))
  {
    TipToHighestEffect(d);
    hide Sound, Heads, TipToHighest;
  }

  lemma {:induction false} AnyActive(t: seq<Row>, run: seq<Header>)
    requires run != [] && AllAlone(t, run)
    ensures exists i :: 0 <= i < |t| && t[i].active
  {
    OneAlone(t, run, 0);
  }

  lemma {:induction false} FoundNames(t: seq<Row>, h: Header)
    ensures NamesRow(t, h, Find(Heads(t), h.prev))
  {
    forall q | 0 <= q < |t| ensures Heads(t)[q] == t[q].h { }
  }

  lemma {:induction false} TopOfSame(t: seq<Row>, u: seq<Row>, i: nat)
    requires SameActive(t, u) && i < |t| && exists j :: 0 <= j < |t| && t[j].active
    ensures HighestActive(u).Some?
    ensures HighestActive(u) == Some(i) <==> t[i].active && forall j :: 0 <= j < |t| && t[j].active ==>
              t[j].h.height < t[i].h.height || (t[j].h.height == t[i].h.height && j <= i)
  {
    var j :| 0 <= j < |t| && t[j].active;
    assert u[j].active;
    var k := HighestActive(u);
    assert k.Some?;
    assert u[i].active == t[i].active && u[k.value].active == t[k.value].active;
    forall m | 0 <= m < |t| ensures u[m].h == t[m].h && u[m].active == t[m].active { }
  }
}
