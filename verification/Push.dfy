/** The push: the run is inserted, then the stored chain decides whether it is
    the active one (src/storage.rs:1480-1597). */
module Push {
  import opened Wrappers
  import opened Headers
  import opened HeaderTable
  import opened Live
  import opened Bulk

  datatype Verdict = Served | Activated | StoredInactive

  /** The most headers one push may activate (src/storage.rs:1454). */
  const MAX_ACTIVATION := 400

  /** The pushed header's row is the only active row at its height. */
  ghost predicate SoleActive(t: seq<Row>, h: Header) {
    && (exists i :: 0 <= i < |t| && t[i].active && t[i].h == h)
    && (forall i: nat :: ActiveAt(t, i, h.height) ==> t[i].h.hash == h.hash)
  }

  ghost predicate AllSole(t: seq<Row>, run: seq<Header>) {
    forall j :: 0 <= j < |run| ==> SoleActive(t, run[j])
  }

  /** An active row at the next height names the last pushed header. */
  ghost predicate IsChild(t: seq<Row>, last: Header, c: nat) {
    ActiveAt(t, c, last.height + 1) && t[c].h.prev == last.hash
  }

  ghost function ChildOf(t: seq<Row>, last: Header): (r: Option<nat>)
    ensures r.Some? ==> r.value < |t| && IsChild(t, last, r.value)
    ensures r.None? ==> forall c: nat :: !IsChild(t, last, c)
  {
    if c: nat :| IsChild(t, last, c) && forall d: nat :: d < c ==> !IsChild(t, last, d)
    then Some(c)
    else NoChild(t, last); None
  }

  lemma {:induction false} NoChild(t: seq<Row>, last: Header)
    requires !exists c: nat :: IsChild(t, last, c) && forall d: nat :: d < c ==> !IsChild(t, last, d)
    ensures forall c: nat :: !IsChild(t, last, c)
  {
    forall c: nat ensures !IsChild(t, last, c) { NoChildUpTo(t, last, c + 1); }
  }

  lemma {:induction false} NoChildUpTo(t: seq<Row>, last: Header, n: nat)
    requires !exists c: nat :: IsChild(t, last, c) && forall d: nat :: d < c ==> !IsChild(t, last, d)
    ensures forall c: nat :: c < n ==> !IsChild(t, last, c)
  {
    if n > 0 { NoChildUpTo(t, last, n - 1); }
  }

  /** An active row of the run's heights that is not one of its headers. */
  ghost predicate Rival(t: seq<Row>, run: seq<Header>, i: nat)
    requires run != []
  {
    && i < |t| && t[i].active && run[0].height <= t[i].h.height <= run[|run| - 1].height
    && forall j :: 0 <= j < |run| ==> run[j].hash != t[i].h.hash
  }

  /** The lowest height a rival is active at. */
  ghost predicate LowestRival(t: seq<Row>, run: seq<Header>, height: nat)
    requires run != []
  {
    (exists i: nat :: Rival(t, run, i) && t[i].h.height == height)
    && forall i: nat :: Rival(t, run, i) ==> height <= t[i].h.height
  }

  ghost function PendingOf(t: seq<Row>, run: seq<Header>): (r: seq<Stmt>)
    requires run != []
  {
    if height: nat :| LowestRival(t, run, height) then [RecordPending(height)] else []
  }

  function Canonicalizations(run: seq<Header>): (r: seq<Stmt>)
    ensures |r| == |run|
  {
    seq(|run|, j requires 0 <= j < |run| => CanonicalizeHeight(run[j].hash, run[j].height))
  }

  /** The activation, one transaction (src/storage.rs:1570-1590). */
  ghost function ActivationBatch(t: seq<Row>, run: seq<Header>, c: nat): seq<Stmt>
    requires run != [] && c < |t|
  {
    Canonicalizations(run) + [LinkChild(run[|run| - 1].hash, t[c].h.hash)] + PendingOf(t, run)
  }

  /** `update_chain_tip_to_highest` (src/storage.rs:723-742). */
  ghost function TipToHighest(db: Db): Db {
    match HighestActive(db.rows)
    case None => db
    case Some(x) => Run(db, [ClearChainTip, SetChainTip(db.rows[x].h.hash)])
  }

  /** `canonicalize_pushed` (src/storage.rs:1493-1597). */
  ghost function CanonicalizePushed(db: Db, run: seq<Header>): (Db, Verdict) {
    var t := db.rows;
    if run == [] then (db, Served)
    else
      var first, last := run[0], run[|run| - 1];
      if AllSole(t, run) then
        (TipToHighest(Run(db, [LinkSpan(first.height, last.height + 1)])), Served)
      else
        var child := ChildOf(t, last);
        var parent := Find(Heads(t), first.prev);
        if child.None? then (db, StoredInactive)
        else if 0 < first.height && parent.Some? && !t[parent.value].active then (db, StoredInactive)
        else if MAX_ACTIVATION < |run| then (db, StoredInactive)
        else (Run(db, ActivationBatch(t, run, child.value)), Activated)
  }

  /** `ingest_pushed` (src/storage.rs:1480-1491): a refused run is not
      canonicalized. */
  ghost function IngestPushed(all: iset<Header>, p: Params, db: Db, run: seq<Header>): (Db, Option<Verdict>)
    requires Agree(all) && AllIn(all, run) && Sound(Heads(db.rows)) && AllIn(all, Heads(db.rows))
  {
    var (db1, result) := InsertHeadersBatch(all, p, db, run);
    if Failed(result) then (db1, None)
    else
      var (db2, verdict) := CanonicalizePushed(db1, run);
      (db2, Some(verdict))
  }

  // ── The activation's effect ──────────────────────────────────────────────

  /** Whether a row is active after the activation. */
  ghost predicate ActiveAfter(run: seq<Header>, row: Row)
    requires run != []
  {
    if run[0].height <= row.h.height < run[0].height + |run|
    then row.h.hash == run[row.h.height - run[0].height].hash
    else row.active
  }

  lemma {:induction false} RunCanonicalizations(db: Db, run: seq<Header>)
    requires run != [] && Linked(run)
    ensures var r := Run(db, Canonicalizations(run));
            && r.pending == db.pending && |r.rows| == |db.rows| && Heads(r.rows) == Heads(db.rows)
            && forall i {:trigger r.rows[i]} :: 0 <= i < |db.rows| ==>
                 r.rows[i] == db.rows[i].(active := ActiveAfter(run, db.rows[i]))
    decreases |run|
  {
    var ss := Canonicalizations(run);
    var next := Exec(db, CanonicalizeHeight(run[0].hash, run[0].height));
    CanonicalizeEffect(db, run[0]);
    hide Exec, Heads;
    if |run| == 1 {
      assert ss == [ss[0]];
      RunOne(db, ss[0]);
    } else {
      assert ss[1..] == Canonicalizations(run[1..]);
      assert run[1].height == run[0].height + 1;
      RunCanonicalizations(next, run[1..]);
      hide Run, Linked;
      forall i | 0 <= i < |db.rows|
        ensures Run(db, ss).rows[i] == db.rows[i].(active := ActiveAfter(run, db.rows[i]))
      {
        assert next.rows[i].h == db.rows[i].h;
      }
    }
  }

  lemma {:induction false} CanonicalizeEffect(db: Db, h: Header)
    ensures var r := Exec(db, CanonicalizeHeight(h.hash, h.height));
            && r.pending == db.pending && |r.rows| == |db.rows| && Heads(r.rows) == Heads(db.rows)
            && forall i {:trigger r.rows[i]} :: 0 <= i < |db.rows| ==>
                 r.rows[i] == if db.rows[i].h.height == h.height
                              then db.rows[i].(active := db.rows[i].h.hash == h.hash) else db.rows[i]
  {
  }

  /** The table after an activation: at the run's heights exactly the pushed
      rows are active, the child's link is set, the rest is as it was. */
  ghost predicate ActivatedTo(a: Db, b: Db, run: seq<Header>, c: nat)
    requires run != [] && c < |a.rows|
  {
    && |b.rows| == |a.rows|
    && (forall i {:trigger b.rows[i]} :: 0 <= i < |a.rows| ==>
          && b.rows[i].h == a.rows[i].h && b.rows[i].tip == a.rows[i].tip && b.rows[i].work == a.rows[i].work
          && b.rows[i].active == ActiveAfter(run, a.rows[i])
          && (i != c ==> b.rows[i].link == a.rows[i].link))
    && b.rows[c].link == Find(Heads(a.rows), run[|run| - 1].hash)
  }

  lemma {:induction false} ActivationEffect(db: Db, run: seq<Header>, c: nat)
    requires Sound(Heads(db.rows)) && run != [] && Linked(run) && c < |db.rows|
    ensures var r := Run(db, ActivationBatch(db.rows, run, c));
            ActivatedTo(db, r, run, c)
            && r.pending == Run(db, PendingOf(db.rows, run)).pending
  {
    var t := db.rows;
    var cs := Canonicalizations(run);
    var link := LinkChild(run[|run| - 1].hash, t[c].h.hash);
    var d1 := Run(db, cs);
    var d2 := Exec(d1, link);
    RunCanonicalizations(db, run);
    LinkChildEffect(d1, run[|run| - 1].hash, c);
    PendingKeepsRows(d2, db, t, run);
    hide *;
    RunAppend(db, cs, [link]);
    RunOne(d1, link);
    RunAppend(db, cs + [link], PendingOf(t, run));
    ActivationRows(db, d1, d2, Run(db, ActivationBatch(t, run, c)), run, c);
  }

  lemma {:induction false} LinkChildEffect(db: Db, x: Hash, c: nat)
    requires Sound(Heads(db.rows)) && c < |db.rows|
    ensures var r := Exec(db, LinkChild(x, db.rows[c].h.hash));
            && r.pending == db.pending && |r.rows| == |db.rows|
            && forall i {:trigger r.rows[i]} :: 0 <= i < |db.rows| ==>
                 r.rows[i] == if i == c then db.rows[i].(link := Find(Heads(db.rows), x)) else db.rows[i]
  {
    hide Sound;
    forall i | 0 <= i < |db.rows| ensures db.rows[i].h.hash == db.rows[c].h.hash ==> i == c {
      SoundPair(Heads(db.rows), i, c);
    }
  }

  lemma {:induction false} PendingKeepsRows(d: Db, db: Db, t: seq<Row>, run: seq<Header>)
    requires run != [] && d.pending == db.pending
    ensures Run(d, PendingOf(t, run)).rows == d.rows
    ensures Run(d, PendingOf(t, run)).pending == Run(db, PendingOf(t, run)).pending
  {
    var ss := PendingOf(t, run);
    if ss != [] {
      assert ss == [ss[0]];
      RunOne(d, ss[0]);
      RunOne(db, ss[0]);
    }
  }

  lemma {:induction false} ActivationRows(db: Db, d1: Db, d2: Db, r: Db, run: seq<Header>, c: nat)
    requires run != [] && c < |db.rows| && Heads(d1.rows) == Heads(db.rows)
    requires |d1.rows| == |db.rows| && |d2.rows| == |db.rows| && r.rows == d2.rows
    requires forall i {:trigger d1.rows[i]} :: 0 <= i < |db.rows| ==>
               d1.rows[i] == db.rows[i].(active := ActiveAfter(run, db.rows[i]))
    requires forall i {:trigger d2.rows[i]} :: 0 <= i < |db.rows| ==>
               d2.rows[i] == if i == c then d1.rows[i].(link := Find(Heads(d1.rows), run[|run| - 1].hash)) else d1.rows[i]
    ensures ActivatedTo(db, r, run, c)
  {
    hide ActiveAfter;
    forall i | 0 <= i < |db.rows|
      ensures r.rows[i] == if i == c
        then db.rows[i].(active := ActiveAfter(run, db.rows[i]), link := Find(Heads(db.rows), run[|run| - 1].hash))
        else db.rows[i].(active := ActiveAfter(run, db.rows[i]))
    {
      assert d1.rows[i] == db.rows[i].(active := ActiveAfter(run, db.rows[i]));
    }
  }

  // ── What the verdict means ───────────────────────────────────────────────

  /** Every pushed header has its row. */
  ghost predicate AllStored(t: seq<Row>, run: seq<Header>) {
    forall j :: 0 <= j < |run| ==> Stored(t, run[j])
  }

  ghost predicate Stored(t: seq<Row>, h: Header) {
    exists i :: 0 <= i < |t| && t[i].h == h
  }

  /** Setting links or the tip flag leaves who is active. */
  ghost predicate SameActive(t: seq<Row>, u: seq<Row>) {
    |t| == |u| && forall i {:trigger u[i]} :: 0 <= i < |t| ==> u[i].h == t[i].h && u[i].active == t[i].active
  }

  lemma {:induction false} SoleKept(t: seq<Row>, u: seq<Row>, h: Header)
    requires SameActive(t, u)
    ensures SoleActive(u, h) <==> SoleActive(t, h)
  {
    if SoleActive(t, h) {
      var i :| 0 <= i < |t| && t[i].active && t[i].h == h;
      assert u[i].active && u[i].h == h;
      forall j: nat | ActiveAt(u, j, h.height) ensures u[j].h.hash == h.hash { assert ActiveAt(t, j, h.height); }
    }
    if SoleActive(u, h) {
      var i :| 0 <= i < |u| && u[i].active && u[i].h == h;
      assert t[i].active && t[i].h == h;
      forall j: nat | ActiveAt(t, j, h.height) ensures t[j].h.hash == h.hash { assert ActiveAt(u, j, h.height); }
    }
  }

  lemma {:induction false} LinkSpanEffect(db: Db, lo: nat, hi: nat)
    ensures var r := Run(db, [LinkSpan(lo, hi)]);
            && r.pending == db.pending && SameActive(db.rows, r.rows) && Heads(r.rows) == Heads(db.rows)
            && forall i {:trigger r.rows[i]} :: 0 <= i < |db.rows| ==>
                 r.rows[i] == if db.rows[i].active && db.rows[i].link.None? && lo <= db.rows[i].h.height <= hi
                              then db.rows[i].(link := Find(Heads(db.rows), db.rows[i].h.prev)) else db.rows[i]
  {
    RunOne(db, LinkSpan(lo, hi));
  }

  lemma {:induction false} TipToHighestEffect(db: Db)
    requires Sound(Heads(db.rows))
    ensures var r := TipToHighest(db);
            && r.pending == db.pending && SameActive(db.rows, r.rows) && Heads(r.rows) == Heads(db.rows)
            && (HighestActive(db.rows).None? ==> r == db)
            && (HighestActive(db.rows).Some? ==> forall i {:trigger r.rows[i]} :: 0 <= i < |db.rows| ==>
                  r.rows[i] == db.rows[i].(tip := i == HighestActive(db.rows).value))
  {
    if HighestActive(db.rows).Some? {
      var x := HighestActive(db.rows).value;
      RunTwo(db, ClearChainTip, SetChainTip(db.rows[x].h.hash));
      forall i | 0 <= i < |db.rows| ensures db.rows[i].h.hash == db.rows[x].h.hash ==> i == x {
        SoundPair(Heads(db.rows), i, x);
      }
    }
  }

  /** A pushed row is the only active one at its height after an activation. */
  lemma {:induction false} ActivatedSole(a: Db, b: Db, run: seq<Header>, c: nat, j: nat)
    requires Sound(Heads(a.rows)) && run != [] && Linked(run) && c < |a.rows| && ActivatedTo(a, b, run, c)
    requires AllStored(a.rows, run) && j < |run|
    ensures SoleActive(b.rows, run[j])
  {
    LinkedHeights(run, j);
    assert Stored(a.rows, run[j]);
    var i :| 0 <= i < |a.rows| && a.rows[i].h == run[j];
    assert b.rows[i].active && b.rows[i].h == run[j];
    forall m: nat | ActiveAt(b.rows, m, run[j].height) ensures b.rows[m].h.hash == run[j].hash {
      assert b.rows[m].active == ActiveAfter(run, a.rows[m]);
    }
  }

  /** The verdict is "active" or "activated" exactly when every pushed row ends
      as the only active row at its height; "storedInactive" changes nothing. */
  lemma {:induction false} VerdictExact(db: Db, run: seq<Header>)
    requires Sound(Heads(db.rows)) && Linked(run) && AllStored(db.rows, run)
    ensures var (after, verdict) := CanonicalizePushed(db, run);
            && (verdict != StoredInactive <==> AllSole(after.rows, run))
            && (verdict == StoredInactive ==> after == db)
  {
    var t := db.rows;
    var (after, verdict) := CanonicalizePushed(db, run);
    if run != [] {
      hide Sound, Run, Heads, SoleActive;
      var d := Run(db, [LinkSpan(run[0].height, run[|run| - 1].height + 1)]);
      if AllSole(t, run) {
        LinkSpanEffect(db, run[0].height, run[|run| - 1].height + 1);
        TipToHighestEffect(d);
        forall j | 0 <= j < |run| ensures SoleActive(after.rows, run[j]) {
          SoleKept(t, d.rows, run[j]);
          SoleKept(d.rows, after.rows, run[j]);
        }
      } else if verdict == Activated {
        var c := ChildOf(t, run[|run| - 1]).value;
        ActivationEffect(db, run, c);
        forall j | 0 <= j < |run| ensures SoleActive(after.rows, run[j]) {
          ActivatedSole(db, after, run, c, j);
        }
      }
    }
  }

  // ── The links an activation mends ────────────────────────────────────────

  ghost predicate OnePerHeight(t: seq<Row>) {
    forall i, j :: 0 <= i < |t| && 0 <= j < |t| && t[i].active && t[j].active && t[i].h.height == t[j].h.height
      ==> i == j
  }

  /** An active row at `height + 1` whose parent is not active at `height`. */
  ghost predicate Broken(t: seq<Row>, height: nat) {
    exists c: nat :: ActiveAt(t, c, height + 1)
      && forall q: nat :: ActiveAt(t, q, height) ==> t[q].h.hash != t[c].h.prev
  }

  /** The row that is active at a height of the run after an activation. */
  lemma {:induction false} ActiveInRun(a: Db, b: Db, run: seq<Header>, c: nat, i: nat, height: nat)
    requires run != [] && Linked(run) && c < |a.rows| && ActivatedTo(a, b, run, c)
    requires ActiveAt(b.rows, i, height) && run[0].height <= height < run[0].height + |run|
    ensures b.rows[i].h.hash == run[height - run[0].height].hash
  {
    assert b.rows[i].active == ActiveAfter(run, a.rows[i]);
  }

  /** Away from the run's heights the same rows are active. */
  lemma {:induction false} ActiveAway(a: Db, b: Db, run: seq<Header>, c: nat, i: nat, height: nat)
    requires run != [] && c < |a.rows| && ActivatedTo(a, b, run, c)
    requires !(run[0].height <= height < run[0].height + |run|)
    ensures ActiveAt(b.rows, i, height) <==> ActiveAt(a.rows, i, height)
  {
    if i < |a.rows| { assert b.rows[i].active == ActiveAfter(run, a.rows[i]); }
  }

  /** A height the activation does not touch, nor the one above it. */
  lemma {:induction false} BrokenAway(a: Db, b: Db, run: seq<Header>, c: nat, height: nat)
    requires run != [] && c < |a.rows| && ActivatedTo(a, b, run, c)
    requires height + 1 < run[0].height || run[0].height + |run| <= height
    ensures Broken(b.rows, height) <==> Broken(a.rows, height)
  {
    forall i: nat
      ensures ActiveAt(b.rows, i, height) <==> ActiveAt(a.rows, i, height)
      ensures ActiveAt(b.rows, i, height + 1) <==> ActiveAt(a.rows, i, height + 1)
    {
      ActiveAway(a, b, run, c, i, height);
      ActiveAway(a, b, run, c, i, height + 1);
    }
    assert forall i {:trigger b.rows[i]} :: 0 <= i < |a.rows| ==> b.rows[i].h == a.rows[i].h;
    hide ActivatedTo;
    if Broken(b.rows, height) {
      var x: nat :| ActiveAt(b.rows, x, height + 1)
                    && forall q: nat :: ActiveAt(b.rows, q, height) ==> b.rows[q].h.hash != b.rows[x].h.prev;
      assert ActiveAt(a.rows, x, height + 1);
      assert forall q: nat :: ActiveAt(a.rows, q, height) ==> ActiveAt(b.rows, q, height);
    }
    if Broken(a.rows, height) {
      var x: nat :| ActiveAt(a.rows, x, height + 1)
                    && forall q: nat :: ActiveAt(a.rows, q, height) ==> a.rows[q].h.hash != a.rows[x].h.prev;
      assert ActiveAt(b.rows, x, height + 1);
      assert forall q: nat :: ActiveAt(b.rows, q, height) ==> ActiveAt(a.rows, q, height);
    }
  }

  /** The header an active row carries inside the run's heights. */
  lemma {:induction false} HeaderInRun(a: Db, b: Db, run: seq<Header>, c: nat, i: nat, height: nat)
    requires Sound(Heads(a.rows)) && run != [] && Linked(run) && c < |a.rows| && ActivatedTo(a, b, run, c)
    requires AllStored(a.rows, run)
    requires ActiveAt(b.rows, i, height) && run[0].height <= height < run[0].height + |run|
    ensures b.rows[i].h == run[height - run[0].height]
  {
    var j := height - run[0].height;
    ActiveInRun(a, b, run, c, i, height);
    assert Stored(a.rows, run[j]);
    var n :| 0 <= n < |a.rows| && a.rows[n].h == run[j];
    SoundPair(Heads(a.rows), i, n);
  }

  /** The parent the active row above a mended height names is active there. */
  lemma {:induction false} MendedAt(a: Db, b: Db, run: seq<Header>, c: nat, height: nat, x: nat) returns (q: nat)
    requires Sound(Heads(a.rows)) && OnePerHeight(a.rows) && AllStored(a.rows, run)
    requires run != [] && Linked(run) && IsChild(a.rows, run[|run| - 1], c) && ActivatedTo(a, b, run, c)
    requires run[0].height <= height < run[0].height + |run| && ActiveAt(b.rows, x, height + 1)
    ensures ActiveAt(b.rows, q, height) && b.rows[q].h.hash == b.rows[x].h.prev
  {
    var first := run[0].height;
    q := PushedRow(a, b, run, c, height);
    LinkedHeights(run, |run| - 1);
    if height + 1 < first + |run| {
      HeaderInRun(a, b, run, c, x, height + 1);
    } else {
      ActiveAway(a, b, run, c, x, height + 1);
      assert x == c;
    }
  }

  lemma {:induction false} MendedBelow(a: Db, b: Db, run: seq<Header>, c: nat, height: nat, x: nat) returns (q: nat)
    requires Sound(Heads(a.rows)) && AllStored(a.rows, run)
    requires run != [] && Linked(run) && c < |a.rows| && ActivatedTo(a, b, run, c)
    requires exists q :: 0 <= q < |a.rows| && a.rows[q].active && a.rows[q].h.hash == run[0].prev
    requires run[0].height == height + 1 && ActiveAt(b.rows, x, height + 1)
    ensures ActiveAt(b.rows, q, height) && b.rows[q].h.hash == b.rows[x].h.prev
  {
    HeaderInRun(a, b, run, c, x, height + 1);
    q := ParentActive(a, run);
    ActiveAway(a, b, run, c, q, height);
  }

  /** At and between the parent of the push and the child above it nothing is
      broken after an activation. */
  lemma {:induction false} MendedInside(a: Db, b: Db, run: seq<Header>, c: nat, height: nat)
    requires Sound(Heads(a.rows)) && OnePerHeight(a.rows) && AllStored(a.rows, run)
    requires run != [] && Linked(run) && IsChild(a.rows, run[|run| - 1], c) && ActivatedTo(a, b, run, c)
    requires 0 < run[0].height ==>
               exists q :: 0 <= q < |a.rows| && a.rows[q].active && a.rows[q].h.hash == run[0].prev
    requires run[0].height <= height + 1 && height < run[0].height + |run|
    ensures !Broken(b.rows, height)
  {
    hide Sound, Heads, OnePerHeight, AllStored, Linked, ActivatedTo;
    if Broken(b.rows, height) {
      var x: nat :| ActiveAt(b.rows, x, height + 1)
                    && forall q: nat :: ActiveAt(b.rows, q, height) ==> b.rows[q].h.hash != b.rows[x].h.prev;
      if height < run[0].height {
        var q := MendedBelow(a, b, run, c, height, x);
      } else {
        var q := MendedAt(a, b, run, c, height, x);
      }
    }
  }

  /** The active row the push stands on. */
  lemma {:induction false} ParentActive(a: Db, run: seq<Header>) returns (q: nat)
    requires Sound(Heads(a.rows)) && AllStored(a.rows, run) && run != [] && 0 < run[0].height
    requires exists q :: 0 <= q < |a.rows| && a.rows[q].active && a.rows[q].h.hash == run[0].prev
    ensures ActiveAt(a.rows, q, run[0].height - 1) && a.rows[q].h.hash == run[0].prev
  {
    var q' :| 0 <= q' < |a.rows| && a.rows[q'].active && a.rows[q'].h.hash == run[0].prev;
    assert Stored(a.rows, run[0]);
    var n :| 0 <= n < |a.rows| && a.rows[n].h == run[0];
    SoundPair(Heads(a.rows), n, q');
    q := q';
  }

  /** The active row of a pushed height. */
  lemma {:induction false} PushedRow(a: Db, b: Db, run: seq<Header>, c: nat, height: nat) returns (q: nat)
    requires run != [] && Linked(run) && c < |a.rows| && ActivatedTo(a, b, run, c) && AllStored(a.rows, run)
    requires run[0].height <= height < run[0].height + |run|
    ensures ActiveAt(b.rows, q, height) && b.rows[q].h == run[height - run[0].height]
  {
    var j := height - run[0].height;
    LinkedHeights(run, j);
    assert Stored(a.rows, run[j]);
    var n :| 0 <= n < |a.rows| && a.rows[n].h == run[j];
    q := n;
    assert b.rows[n].active == ActiveAfter(run, a.rows[n]);
  }

  ghost predicate Mended(a: seq<Row>, b: seq<Row>, lo: nat, hi: nat) {
    && (forall height: nat {:trigger Broken(b, height)} :: Broken(b, height) ==> height + 1 < lo || hi < height)
    && (forall height: nat {:trigger Broken(b, height)} :: height + 1 < lo || hi < height
          ==> (Broken(b, height) <==> Broken(a, height)))
  }

  lemma {:induction false} MendsAll(a: Db, b: Db, run: seq<Header>, c: nat)
    requires Sound(Heads(a.rows)) && OnePerHeight(a.rows) && AllStored(a.rows, run)
    requires run != [] && Linked(run) && IsChild(a.rows, run[|run| - 1], c) && ActivatedTo(a, b, run, c)
    requires 0 < run[0].height ==>
               exists q :: 0 <= q < |a.rows| && a.rows[q].active && a.rows[q].h.hash == run[0].prev
    ensures Mended(a.rows, b.rows, run[0].height, run[|run| - 1].height)
  {
    LinkedHeights(run, |run| - 1);
    hide Sound, Heads, Broken, OnePerHeight, AllStored, ActivatedTo, IsChild, Linked;
    forall height: nat
      ensures Broken(b.rows, height) ==> height + 1 < run[0].height || run[|run| - 1].height < height
      ensures height + 1 < run[0].height || run[|run| - 1].height < height ==>
                (Broken(b.rows, height) <==> Broken(a.rows, height))
    {
      if height + 1 < run[0].height || run[|run| - 1].height < height {
        BrokenAway(a, b, run, c, height);
      } else {
        MendedInside(a, b, run, c, height);
      }
    }
  }

  /** What led to an activation. */
  lemma {:induction false} ActivationFacts(db: Db, run: seq<Header>) returns (c: nat)
    requires Sound(Heads(db.rows)) && Linked(run) && run != []
    requires CanonicalizePushed(db, run).1 == Activated
    ensures IsChild(db.rows, run[|run| - 1], c) && ActivatedTo(db, CanonicalizePushed(db, run).0, run, c)
    ensures 0 < run[0].height && Find(Heads(db.rows), run[0].prev).Some? ==>
              exists q :: 0 <= q < |db.rows| && db.rows[q].active && db.rows[q].h.hash == run[0].prev
    ensures CanonicalizePushed(db, run).0 == Run(db, ActivationBatch(db.rows, run, c))
  {
    hide Sound, Run, ActivationBatch, ActivatedTo;
    c := ChildOf(db.rows, run[|run| - 1]).value;
    ActivationEffect(db, run, c);
    if 0 < run[0].height && Find(Heads(db.rows), run[0].prev).Some? {
      var q := Find(Heads(db.rows), run[0].prev).value;
      assert db.rows[q].active && db.rows[q].h.hash == run[0].prev;
    }
  }

  /** The rows above an activated push are left as they are. */
  ghost predicate AboveKept(t: seq<Row>, u: seq<Row>, height: nat) {
    |t| == |u| && forall i {:trigger u[i]} :: 0 <= i < |t| && height < t[i].h.height ==>
      u[i].h == t[i].h && u[i].active == t[i].active && u[i].tip == t[i].tip
  }

  lemma {:induction false} ActivationAbove(a: Db, b: Db, run: seq<Header>, c: nat)
    requires run != [] && Linked(run) && c < |a.rows| && ActivatedTo(a, b, run, c)
    ensures AboveKept(a.rows, b.rows, run[|run| - 1].height)
  {
    LinkedHeights(run, |run| - 1);
  }

  /** An activation leaves every row above the push active as it was. When the
      push stands on a stored row, or starts at the genesis height, it breaks
      no link and mends every break from the parent of the push up to the child
      above it; exactly then, because a parent that is not stored passes the
      guard of the parent (src/storage.rs:1553-1562). */
  lemma {:induction false} ActivationMends(db: Db, run: seq<Header>)
    requires Sound(Heads(db.rows)) && Linked(run) && AllStored(db.rows, run) && OnePerHeight(db.rows)
    requires run != [] && CanonicalizePushed(db, run).1 == Activated
    ensures Mended(db.rows, CanonicalizePushed(db, run).0.rows, run[0].height, run[|run| - 1].height)
            <==> run[0].height == 0 || Find(Heads(db.rows), run[0].prev).Some?
    ensures AboveKept(db.rows, CanonicalizePushed(db, run).0.rows, run[|run| - 1].height)
  {
    hide Sound, Linked, AllStored, OnePerHeight, CanonicalizePushed, Mended, AboveKept, ActivatedTo, Heads, Run;
    var c := ActivationFacts(db, run);
    ActivationAbove(db, CanonicalizePushed(db, run).0, run, c);
    if run[0].height == 0 || Find(Heads(db.rows), run[0].prev).Some? {
      MendsAll(db, CanonicalizePushed(db, run).0, run, c);
    } else {
      StandsOnNone(db, CanonicalizePushed(db, run).0, run, c);
      BrokenIsNotMended(db.rows, CanonicalizePushed(db, run).0.rows, run);
    }
  }

  /** Under a push whose parent is not stored the link is broken. */
  lemma {:induction false} StandsOnNone(a: Db, b: Db, run: seq<Header>, c: nat)
    requires Sound(Heads(a.rows)) && AllStored(a.rows, run) && Linked(run) && run != []
    requires c < |a.rows| && ActivatedTo(a, b, run, c)
    requires 0 < run[0].height && Find(Heads(a.rows), run[0].prev).None?
    ensures Broken(b.rows, run[0].height - 1)
  {
    var x := PushedRow(a, b, run, c, run[0].height);
    hide Sound, AllStored, Linked;
    forall q: nat | ActiveAt(b.rows, q, run[0].height - 1) ensures b.rows[q].h.hash != b.rows[x].h.prev {
      assert b.rows[q].h == a.rows[q].h && Heads(a.rows)[q] == a.rows[q].h;
    }
    assert ActiveAt(b.rows, x, run[0].height - 1 + 1);
  }

  lemma {:induction false} BrokenIsNotMended(a: seq<Row>, b: seq<Row>, run: seq<Header>)
    requires run != [] && Linked(run) && 0 < run[0].height && Broken(b, run[0].height - 1)
    ensures !Mended(a, b, run[0].height, run[|run| - 1].height)
  {
    LinkedHeights(run, |run| - 1);
    hide Broken;
  }

  // ── A push that stands on no stored row ──────────────────────────────────

  const GENESIS := Header(1, ZERO_HASH, 0, 0, 0)
  const RIVAL := Header(2, 1, 1, 0, 0)
  const PUSHED := Header(3, 9, 1, 0, 0)
  const CHILD := Header(4, 3, 2, 0, 0)

  /** The child above names the pushed header, whose own parent is not stored
      (a checkpoint's hash may vouch for it). */
  const STORE := Db([Row(GENESIS, None, true, false, 1), Row(RIVAL, Some(0), true, false, 2),
                     Row(PUSHED, None, false, false, 1), Row(CHILD, Some(2), true, true, 3)], None)

  lemma {:induction false} StoreIsSound()
    ensures Heads(STORE.rows) == [GENESIS, RIVAL, PUSHED, CHILD] && Sound(Heads(STORE.rows))
  {
    assert Heads(STORE.rows) == [] + [GENESIS] + [RIVAL] + [PUSHED] + [CHILD];
    SoundAppend([], GENESIS);
    SoundAppend([] + [GENESIS], RIVAL);
    SoundAppend([] + [GENESIS] + [RIVAL], PUSHED);
    SoundAppend([] + [GENESIS] + [RIVAL] + [PUSHED], CHILD);
  }

  lemma {:induction false} StoreActivates()
    ensures CanonicalizePushed(STORE, [PUSHED]).1 == Activated && Find(Heads(STORE.rows), PUSHED.prev).None?
  {
    StoreIsSound();
    hide Sound, Run, TipToHighest, ActivationBatch;
    assert IsChild(STORE.rows, PUSHED, 3);
    assert !SoleActive(STORE.rows, PUSHED);
    assert !AllSole(STORE.rows, [PUSHED]) by { assert [PUSHED][0] == PUSHED; }
  }

  lemma {:induction false} StoreIsWhole()
    ensures OnePerHeight(STORE.rows) && AllStored(STORE.rows, [PUSHED]) && !Broken(STORE.rows, 0)
  {
    assert STORE.rows[2].h == PUSHED;
    assert Stored(STORE.rows, PUSHED);
    assert ActiveAt(STORE.rows, 0, 0);
  }

  /** The pushed header is a listed checkpoint. */
  const VOUCHING := Params((h: Header) => true, (bits: nat) => 1,
                           (view: map<nat, Link>, prev: nat, time: nat) => Bits(0), (height: nat) => 1, 1, [(1, 3)])

  const KNOWN := iset{GENESIS, RIVAL, PUSHED, CHILD}

  lemma {:induction false} KnownAgree()
    ensures Agree(KNOWN) && AllIn(KNOWN, Heads(STORE.rows)) && AllIn(KNOWN, [PUSHED]) && VOUCHING.Ascending()
  {
    StoreIsSound();
  }

  /** The checkpoint vouches for the push, and a rival at its height sends it
      through the live writer. */
  lemma {:induction false} StoreLetsIn()
    ensures Sound(Heads(STORE.rows))
    ensures JudgeRun(VOUCHING, STORE.rows, [PUSHED]).None? && Competes(STORE.rows, [PUSHED])
  {
    StoreIsSound();
    hide Sound, LoadWindow, CheckContext;
    var t := STORE.rows;
    assert Find(Heads(t), PUSHED.prev).None?;
    assert ChainTip(t) == Some(3);
    assert VOUCHING.CheckCheckpoint(PUSHED).None?;
    assert [PUSHED][1..] == [] && [] + [LinkOf(PUSHED)] == [LinkOf(PUSHED)];
    assert ContextFault(VOUCHING, [LinkOf(PUSHED)], [], None, Some(1), t).None?;
    assert ContextFault(VOUCHING, [], [PUSHED], None, Some(1), t).None?;
    assert CheckpointInside(VOUCHING.checkpoints, 1, 1) == Some(1);
    assert StoredCheckpointAbove(VOUCHING, t, 1, Some(3)).None?;
    assert t[1].active && t[1].h.height == [PUSHED][0].height && t[1].h.hash != [PUSHED][0].hash;
  }

  /** A header that is stored is a duplicate to the live writer. */
  lemma {:induction false} DupeAlone(all: iset<Header>, p: Params, db: Db, h: Header)
    requires Agree(all) && AllIn(all, [h]) && AllIn(all, Heads(db.rows)) && Sound(Heads(db.rows))
    requires p.pow(h) && Find(Heads(db.rows), h.hash).Some?
    ensures InsertEach(all, p, db, [h]) == (db, Added(false, 0))
  {
    assert h in all by { assert [h][0] in all; }
    AgreeAdmits(all, Heads(db.rows), h);
    hide Sound, Heads, Judge, Run, ReorgTo, NewRow, Admissible, Agree, AllIn;
    assert InsertHeader(p, db, h) == Outcome([], Dupe);
    RunAllNone(db);
    assert [h][1..] == [];
  }

  /** The row is stored: the live writer changes nothing. */
  lemma {:induction false} StoreKeeps()
    ensures Agree(KNOWN) && AllIn(KNOWN, [PUSHED]) && AllIn(KNOWN, Heads(STORE.rows)) && Sound(Heads(STORE.rows))
    ensures InsertHeadersBatch(KNOWN, VOUCHING, STORE, [PUSHED]) == (STORE, Added(false, 0))
  {
    KnownAgree();
    StoreLetsIn();
    assert Heads(STORE.rows)[2] == PUSHED;
    hide Sound, Heads, JudgeRun, Competes, InsertEach, Agree, AllIn;
    DupeAlone(KNOWN, VOUCHING, STORE, PUSHED);
  }

  /** A push accepted under a listed checkpoint, its parent not stored: the
      activation breaks the link below it, which was whole. */
  lemma {:induction false} UnstoredParentBreaks()
    ensures Agree(KNOWN) && VOUCHING.Ascending() && AllIn(KNOWN, [PUSHED]) && AllIn(KNOWN, Heads(STORE.rows))
    ensures Sound(Heads(STORE.rows)) && OnePerHeight(STORE.rows) && AllStored(STORE.rows, [PUSHED])
    ensures var (after, verdict) := IngestPushed(KNOWN, VOUCHING, STORE, [PUSHED]);
            && verdict == Some(Activated) && after == CanonicalizePushed(STORE, [PUSHED]).0
            && !Broken(STORE.rows, 0) && Broken(after.rows, 0)
  {
    KnownAgree();
    StoreIsSound();
    StoreActivates();
    StoreIsWhole();
    StoreKeeps();
    hide Sound, CanonicalizePushed, ActivatedTo, Heads, OnePerHeight, AllStored, Broken, Run, ActivationBatch,
         InsertHeadersBatch, Agree, AllIn;
    var c := ActivationFacts(STORE, [PUSHED]);
    StandsOnNone(STORE, CanonicalizePushed(STORE, [PUSHED]).0, [PUSHED], c);
  }
}
