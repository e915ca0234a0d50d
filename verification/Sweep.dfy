/** The self-heal of dual-active heights (src/storage.rs:1599-1640): from the top
    down, one statement a height, each after the height above it. */
module Sweep {
  import opened Wrappers
  import opened HeaderTable

  /** The most heights one sweep settles (src/storage.rs:1599-1601). */
  const HEIGHTS_PER_SWEEP := 1000

  ghost predicate Dual(t: seq<Row>, height: nat) {
    exists i: nat, j: nat :: i != j && ActiveAt(t, i, height) && ActiveAt(t, j, height)
  }

  function HeightBound(t: seq<Row>): (n: nat)
    ensures forall i :: 0 <= i < |t| ==> t[i].h.height < n
  {
    if t == [] then 0 else Max(HeightBound(t[..|t| - 1]), t[|t| - 1].h.height + 1)
  }

  /** The dual-active heights below `n`, highest first
      (`SQL_DUAL_ACTIVE_HEIGHTS`). */
  ghost function DualsBelow(t: seq<Row>, n: nat): (r: seq<nat>)
    ensures forall x: nat :: x in r <==> x < n && Dual(t, x)
    ensures forall i, j :: 0 <= i < j < |r| ==> r[j] < r[i]
  {
    if n == 0 then []
    else
      var rest := DualsBelow(t, n - 1);
      assert forall x: nat :: x in [n - 1] + rest <==> x == n - 1 || x in rest;
      assert forall j :: 0 <= j < |rest| ==> rest[j] in rest;
      if Dual(t, n - 1) then [n - 1] + rest else rest
  }

  ghost function Duals(t: seq<Row>): seq<nat> {
    DualsBelow(t, HeightBound(t))
  }

  function Dedupes(heights: seq<nat>): (r: seq<Stmt>)
    ensures |r| == |heights|
  {
    seq(|heights|, i requires 0 <= i < |heights| => DedupeHeight(heights[i]))
  }

  /** `dedupe_active_heights` (src/storage.rs:1617-1640). */
  ghost function Sweep(db: Db): Db {
    var heights := Duals(db.rows);
    Run(db, Dedupes(heights[..Min(|heights|, HEIGHTS_PER_SWEEP)]))
  }

  // ── The row a height keeps ───────────────────────────────────────────────

  lemma {:induction false} SomeMax(s: set<nat>) returns (m: nat)
    requires s != {}
    ensures m in s && forall x :: x in s ==> x <= m
    decreases |s|
  {
    var x :| x in s;
    if s == {x} {
      m := x;
    } else {
      var y := SomeMax(s - {x});
      m := if x < y then y else x;
      assert s == (s - {x}) + {x};
    }
  }

  lemma {:induction false} KeptUnique(t: seq<Row>, height: nat, k: nat, l: nat)
    requires Kept(t, height, k) && Kept(t, height, l)
    ensures k == l
  {
    hide Named;
  }

  lemma {:induction false} KeptExists(t: seq<Row>, height: nat, i: nat) returns (k: nat)
    requires ActiveAt(t, i, height)
    ensures Kept(t, height, k)
  {
    hide Named;
    var named := set j: nat | 0 <= j < |t| && ActiveAt(t, j, height) && Named(t, j);
    var active := set j: nat | 0 <= j < |t| && ActiveAt(t, j, height);
    if named == {} {
      assert i in active;
      k := SomeMax(active);
      forall j | 0 <= j < |t| && t[j].active && t[j].h.height == height ensures j <= k && !Named(t, j) {
        assert j in active && j !in named;
      }
    } else {
      k := SomeMax(named);
      forall j | k < j < |t| && t[j].active && t[j].h.height == height ensures !Named(t, j) {
        assert j !in named;
      }
    }
  }

  /** A sole active row is kept. */
  lemma {:induction false} SoleKept(t: seq<Row>, height: nat, i: nat)
    requires ActiveAt(t, i, height) && forall j: nat :: ActiveAt(t, j, height) ==> j == i
    ensures Kept(t, height, i)
  {
    var k := KeptExists(t, height, i);
    assert ActiveAt(t, k, height);
  }

  // ── One height settled ───────────────────────────────────────────────────

  /** Rows are only taken off. */
  ghost predicate TakesOff(t: seq<Row>, u: seq<Row>) {
    |u| == |t| && forall i {:trigger u[i]} :: 0 <= i < |t| ==>
      u[i] == t[i].(active := u[i].active) && (u[i].active ==> t[i].active)
  }

  ghost predicate SameBelow(t: seq<Row>, u: seq<Row>, floor: nat) {
    |u| == |t| && forall i {:trigger u[i]} :: 0 <= i < |t| ==>
      u[i].h == t[i].h && (t[i].h.height < floor ==> u[i] == t[i])
  }

  ghost predicate OneAt(t: seq<Row>, height: nat) {
    forall i: nat, j: nat :: ActiveAt(t, i, height) && ActiveAt(t, j, height) ==> i == j
  }

  /** Every height from `floor` up holds one active row if it held any. */
  ghost predicate Settled(t: seq<Row>, u: seq<Row>, floor: nat) {
    && TakesOff(t, u) && SameBelow(t, u, floor)
    && forall height: nat {:trigger OneAt(u, height)} :: floor <= height ==>
         OneAt(u, height) && (SomeAt(t, height) <==> SomeAt(u, height))
  }

  ghost function Dedupe(db: Db, height: nat): Db {
    Exec(db, DedupeHeight(height))
  }

  lemma {:induction false} DedupeEffect(db: Db, height: nat)
    ensures var u := Dedupe(db, height).rows;
            && TakesOff(db.rows, u) && SameBelow(db.rows, u, height) && Dedupe(db, height).pending == db.pending
            && (forall i {:trigger u[i]} :: 0 <= i < |u| && u[i].h.height != height ==> u[i] == db.rows[i])
            && (forall i: nat :: ActiveAt(u, i, height) <==> Kept(db.rows, height, i))
  {
    hide Named;
    var t := db.rows;
    var u := Dedupe(db, height).rows;
    forall i: nat ensures ActiveAt(u, i, height) <==> Kept(t, height, i) {
      if i < |t| { assert u[i] == Touch(DedupeHeight(height), t, i); }
    }
  }

  lemma {:induction false} DedupeSettles(t: seq<Row>, db: Db, height: nat)
    requires Settled(t, db.rows, height + 1)
    ensures Settled(t, Dedupe(db, height).rows, height)
  {
    hide Kept, Dedupe;
    var u := Dedupe(db, height).rows;
    DedupeEffect(db, height);
    forall x: nat | height <= x ensures OneAt(u, x) && (SomeAt(t, x) <==> SomeAt(u, x)) {
      if x == height {
        SettledAt(t, db, height);
      } else {
        SameAt(db.rows, u, height, x);
        assert OneAt(db.rows, x);
      }
    }
  }

  /** Away from the height the same rows are active. */
  lemma {:induction false} SameAt(t: seq<Row>, u: seq<Row>, height: nat, x: nat)
    requires TakesOff(t, u) && x != height
    requires forall i {:trigger u[i]} :: 0 <= i < |u| && u[i].h.height != height ==> u[i] == t[i]
    ensures forall i: nat :: ActiveAt(u, i, x) <==> ActiveAt(t, i, x)
    ensures SomeAt(u, x) <==> SomeAt(t, x)
    ensures OneAt(u, x) <==> OneAt(t, x)
  {
    forall i: nat ensures ActiveAt(u, i, x) <==> ActiveAt(t, i, x) {
      if i < |t| { assert u[i].h == t[i].h; }
    }
    if SomeAt(u, x) {
      var i: nat :| ActiveAt(u, i, x);
      assert ActiveAt(t, i, x);
    }
    if SomeAt(t, x) {
      var i: nat :| ActiveAt(t, i, x);
      assert ActiveAt(u, i, x);
    }
  }

  lemma {:induction false} SettledAt(t: seq<Row>, db: Db, height: nat)
    requires SameBelow(t, db.rows, height + 1)
    ensures OneAt(Dedupe(db, height).rows, height)
    ensures SomeAt(t, height) <==> SomeAt(Dedupe(db, height).rows, height)
  {
    hide Dedupe, Kept;
    var u := Dedupe(db, height).rows;
    DedupeEffect(db, height);
    forall i: nat, j: nat | ActiveAt(u, i, height) && ActiveAt(u, j, height) ensures i == j {
      KeptUnique(db.rows, height, i, j);
    }
    SomeSame(t, db.rows, height + 1, height);
    if SomeAt(db.rows, height) {
      var i: nat :| ActiveAt(db.rows, i, height);
      var k := KeptExists(db.rows, height, i);
      assert ActiveAt(u, k, height);
    }
    if SomeAt(u, height) {
      var i: nat :| ActiveAt(u, i, height);
      assert db.rows[i].active;
      assert ActiveAt(db.rows, i, height);
    }
  }

  /** A height with one active row is left as it stands. */
  lemma {:induction false} DedupeIdle(db: Db, height: nat)
    requires !Dual(db.rows, height)
    ensures Dedupe(db, height) == db
  {
    var t := db.rows;
    var u := Dedupe(db, height).rows;
    forall i | 0 <= i < |t| ensures u[i] == t[i] {
      if t[i].active && t[i].h.height == height {
        assert ActiveAt(t, i, height);
        SoleKept(t, height, i);
      }
    }
    assert u == t;
  }

  // ── The sweep as every height settled from the top ───────────────────────

  ghost function SweepTo(db: Db, n: nat, floor: nat): Db
    decreases n
  {
    if n <= floor then db else SweepTo(Dedupe(db, n - 1), n - 1, floor)
  }

  lemma {:induction false} DualSame(t: seq<Row>, u: seq<Row>, n: nat, x: nat)
    requires SameBelow(t, u, n) && x < n
    ensures Dual(t, x) <==> Dual(u, x)
  {
    forall i: nat ensures ActiveAt(u, i, x) <==> ActiveAt(t, i, x) { ActiveSame(t, u, n, x, i); }
  }

  lemma {:induction false} ActiveSame(t: seq<Row>, u: seq<Row>, n: nat, x: nat, i: nat)
    requires SameBelow(t, u, n) && x < n
    ensures ActiveAt(u, i, x) <==> ActiveAt(t, i, x)
  {
    if i < |t| && t[i].h.height < n { assert u[i] == t[i]; }
  }

  /** The first `m` listed heights settled are all the heights down to some floor
      settled; the rest of the list is what is dual below it. */
  lemma {:induction false} ListIsSweep(t: seq<Row>, db: Db, n: nat, m: nat) returns (floor: nat)
    requires SameBelow(t, db.rows, n) && m <= |DualsBelow(t, n)|
    ensures floor <= n && Run(db, Dedupes(DualsBelow(t, n)[..m])) == SweepTo(db, n, floor)
    ensures DualsBelow(t, floor) == DualsBelow(t, n)[m..]
    ensures m == |DualsBelow(t, n)| ==> DualsBelow(t, floor) == []
    decreases n
  {
    DualsStep(t, n);
    hide *;
    if m == 0 {
      floor := n;
      NoDedupes(db, DualsBelow(t, n)[..0], n);
    } else if Dual(t, n - 1) {
      DedupeBelow(t, db, n);
      floor := ListIsSweep(t, Dedupe(db, n - 1), n - 1, m - 1);
      ConsCut(n - 1, DualsBelow(t, n - 1), m);
      DedupesCons(db, n - 1, DualsBelow(t, n - 1)[..m - 1]);
      SweepToStep(db, n, floor);
    } else {
      DualSame(t, db.rows, n, n - 1);
      DedupeIdle(db, n - 1);
      SameLower(t, db.rows, n);
      floor := ListIsSweep(t, db, n - 1, m);
      SweepToStep(db, n, floor);
    }
  }

  lemma {:induction false} DualsStep(t: seq<Row>, n: nat)
    ensures n == 0 ==> DualsBelow(t, n) == []
    ensures 0 < n ==> DualsBelow(t, n) == if Dual(t, n - 1) then [n - 1] + DualsBelow(t, n - 1) else DualsBelow(t, n - 1)
  {
    hide Dual;
  }

  lemma {:induction false} ConsCut(x: nat, rest: seq<nat>, m: nat)
    requires 0 < m <= |rest| + 1
    ensures ([x] + rest)[..m] == [x] + rest[..m - 1] && ([x] + rest)[m..] == rest[m - 1..]
  {
  }

  lemma {:induction false} NoDedupes(db: Db, none: seq<nat>, n: nat)
    requires none == []
    ensures Run(db, Dedupes(none)) == db && SweepTo(db, n, n) == db
  {
    assert Dedupes(none) == [];
  }

  lemma {:induction false} SweepToStep(db: Db, n: nat, floor: nat)
    requires floor < n
    ensures SweepTo(db, n, floor) == SweepTo(Dedupe(db, n - 1), n - 1, floor)
  {
  }

  lemma {:induction false} SameLower(t: seq<Row>, u: seq<Row>, n: nat)
    requires SameBelow(t, u, n) && 0 < n
    ensures SameBelow(t, u, n - 1)
  {
  }

  lemma {:induction false} DedupeBelow(t: seq<Row>, db: Db, n: nat)
    requires SameBelow(t, db.rows, n) && 0 < n
    ensures SameBelow(t, Dedupe(db, n - 1).rows, n - 1)
  {
    hide Dedupe, Kept;
    DedupeEffect(db, n - 1);
  }

  lemma {:induction false} DedupesCons(db: Db, height: nat, rest: seq<nat>)
    ensures Run(db, Dedupes([height] + rest)) == Run(Dedupe(db, height), Dedupes(rest))
  {
    assert Dedupes([height] + rest) == [DedupeHeight(height)] + Dedupes(rest);
    RunAppend(db, [DedupeHeight(height)], Dedupes(rest));
    RunOne(db, DedupeHeight(height));
  }

  lemma {:induction false} SweepSettles(t: seq<Row>, db: Db, n: nat, floor: nat)
    requires Settled(t, db.rows, n) && floor <= n
    ensures Settled(t, SweepTo(db, n, floor).rows, floor)
    decreases n
  {
    hide Settled, Dedupe;
    if floor < n {
      DedupeSettles(t, db, n - 1);
      SweepSettles(t, Dedupe(db, n - 1), n - 1, floor);
    }
  }

  lemma {:induction false} NothingAbove(t: seq<Row>)
    ensures Settled(t, t, HeightBound(t))
  {
    var n := HeightBound(t);
    forall height: nat | n <= height ensures OneAt(t, height) && (SomeAt(t, height) <==> SomeAt(t, height)) {
    }
  }

  // ── The ancestry of the top row ──────────────────────────────────────────

  /** Every later row of it is named by the row above. */
  lemma {:induction false} UnbrokenChild(t: seq<Row>, k: nat, i: nat) returns (c: nat)
    requires Sound(Heads(t)) && k < |t| && i in Unbroken(t, k) && i != k
    ensures c in Unbroken(t, k) && c < |t| && i < |t|
    ensures t[c].h.prev == t[i].h.hash && t[c].h.height == t[i].h.height + 1
    decreases t[k].h.height
  {
    var q := Parent(Heads(t), k).value;
    SoundPair(Heads(t), k, q);
    if i == q {
      c := k;
    } else {
      c := UnbrokenChild(t, q, i);
    }
  }

  /** The rows of the ancestry from `floor` up stand. */
  ghost predicate AncestryStands(t: seq<Row>, u: seq<Row>, k: nat, floor: nat)
    requires Sound(Heads(t)) && k < |t| && |u| == |t|
  {
    forall i: nat :: i in Unbroken(t, k) && floor <= t[i].h.height ==> u[i].active
  }

  /** Settling the height below keeps the ancestry's row there: it is the one row
      the sole active row above names. */
  lemma {:induction false} AncestorKept(t: seq<Row>, db: Db, k: nat, n: nat, i: nat)
    requires Sound(Heads(t)) && k < |t| && Settled(t, db.rows, n) && AncestryStands(t, db.rows, k, n)
    requires 0 < n && i in Unbroken(t, k) && i != k && i < |t| && t[i].h.height == n - 1
    ensures Kept(db.rows, n - 1, i)
  {
    hide Sound, Unbroken;
    var u := db.rows;
    var c := UnbrokenChild(t, k, i);
    assert u[c].active && u[c].h == t[c].h;
    assert u[i] == t[i];
    assert t[i].active by { UnbrokenActive(t, k, i); }
    assert Named(u, i);
    forall j | i < j < |u| && u[j].active && u[j].h.height == n - 1 ensures !Named(u, j) {
      if Named(u, j) {
        var d :| 0 <= d < |u| && u[d].active && u[d].h.height == u[j].h.height + 1 && u[d].h.prev == u[j].h.hash;
        assert OneAt(u, n);
        assert ActiveAt(u, d, n) && ActiveAt(u, c, n);
        assert u[j].h == t[j].h;
        SoundPair(Heads(t), i, j);
      }
    }
  }

  lemma {:induction false} UnbrokenActive(t: seq<Row>, k: nat, i: nat)
    requires Sound(Heads(t)) && k < |t| && i in Unbroken(t, k) && i != k
    ensures i < |t| && t[i].active && t[i].h.height < t[k].h.height
  {
  }

  lemma {:induction false} DedupeKeepsAncestry(t: seq<Row>, db: Db, k: nat, n: nat)
    requires Sound(Heads(t)) && k < |t| && Settled(t, db.rows, n) && AncestryStands(t, db.rows, k, n)
    requires 0 < n <= t[k].h.height
    ensures AncestryStands(t, Dedupe(db, n - 1).rows, k, n - 1)
  {
    var u := Dedupe(db, n - 1).rows;
    hide Sound, Unbroken, Dedupe, Kept;
    DedupeEffect(db, n - 1);
    forall i: nat | i in Unbroken(t, k) && n - 1 <= t[i].h.height ensures u[i].active {
      if t[i].h.height == n - 1 {
        AncestorKept(t, db, k, n, i);
        assert ActiveAt(u, i, n - 1);
      }
    }
  }

  lemma {:induction false} SweepKeepsAncestry(t: seq<Row>, db: Db, k: nat, n: nat, floor: nat)
    requires Sound(Heads(t)) && k < |t| && Settled(t, db.rows, n) && AncestryStands(t, db.rows, k, n)
    requires floor <= n <= t[k].h.height
    ensures var u := SweepTo(db, n, floor).rows; |u| == |t| && AncestryStands(t, u, k, floor)
    decreases n
  {
    hide Sound, Unbroken, Dedupe, AncestryStands, Settled;
    SettledSize(t, db.rows, n);
    if floor < n {
      DedupeSettles(t, db, n - 1);
      SettledSize(t, Dedupe(db, n - 1).rows, n - 1);
      DedupeKeepsAncestry(t, db, k, n);
      SweepKeepsAncestry(t, Dedupe(db, n - 1), k, n - 1, floor);
    }
  }

  lemma {:induction false} SettledSize(t: seq<Row>, u: seq<Row>, n: nat)
    requires Settled(t, u, n)
    ensures |u| == |t|
  {
  }

  lemma {:induction false} SweepSplit(db: Db, n: nat, mid: nat, floor: nat)
    requires floor <= mid <= n
    ensures SweepTo(db, n, floor) == SweepTo(SweepTo(db, n, mid), mid, floor)
    decreases n
  {
    hide Dedupe;
    if mid < n { SweepSplit(Dedupe(db, n - 1), n - 1, mid, floor); }
  }

  /** Settled from the top to any floor, the whole ancestry of the row kept at
      the highest active height stands. */
  lemma {:induction false} TopAncestryStands(db: Db, floor: nat, k: nat)
    requires Sound(Heads(db.rows)) && k < |db.rows| && floor <= HeightBound(db.rows)
    requires var u := SweepTo(db, HeightBound(db.rows), floor).rows; k < |u| && u[k].active
    requires forall i :: 0 <= i < |db.rows| && db.rows[i].active ==> db.rows[i].h.height <= db.rows[k].h.height
    ensures var u := SweepTo(db, HeightBound(db.rows), floor).rows;
            |u| == |db.rows| && forall i: nat :: i in Unbroken(db.rows, k) ==> u[i].active
  {
    hide Sound, Unbroken, Dedupe;
    var t := db.rows;
    var n := HeightBound(t);
    var top := t[k].h.height;
    NothingAbove(t);
    SweepSettles(t, db, n, floor);
    var u := SweepTo(db, n, floor).rows;
    if top < floor {
      BelowStands(t, u, k, floor);
    } else {
      var mid := SweepTo(db, n, top);
      SweepSplit(db, n, top, floor);
      SweepSettles(t, db, n, top);
      StaysOff(t, mid, top, floor, k);
      TopStands(t, mid.rows, k);
      SweepKeepsAncestry(t, mid, k, top, floor);
      BelowStands(t, u, k, floor);
    }
  }

  lemma {:induction false} StaysOff(t: seq<Row>, db: Db, n: nat, floor: nat, k: nat)
    requires Settled(t, db.rows, n) && floor <= n && k < |db.rows|
    ensures var u := SweepTo(db, n, floor).rows; |u| == |db.rows| && (u[k].active ==> db.rows[k].active)
  {
    hide Dedupe;
    assert Settled(db.rows, db.rows, n);
    SweepSettles(db.rows, db, n, floor);
  }

  /** At the top of the ancestry stands its first row alone. */
  lemma {:induction false} TopStands(t: seq<Row>, u: seq<Row>, k: nat)
    requires Sound(Heads(t)) && k < |t| && |u| == |t| && u[k].active
    ensures AncestryStands(t, u, k, t[k].h.height)
  {
    hide Sound, Unbroken;
    forall i: nat | i in Unbroken(t, k) && t[k].h.height <= t[i].h.height ensures u[i].active {
      if i != k { UnbrokenActive(t, k, i); }
    }
  }

  /** Rows below the floor are as they were. */
  lemma {:induction false} BelowStands(t: seq<Row>, u: seq<Row>, k: nat, floor: nat)
    requires Sound(Heads(t)) && k < |t| && SameBelow(t, u, floor) && u[k].active
    requires AncestryStands(t, u, k, floor) || t[k].h.height < floor
    ensures forall i: nat :: i in Unbroken(t, k) ==> u[i].active
  {
    hide Sound, Unbroken;
    forall i: nat | i in Unbroken(t, k) ensures u[i].active {
      if i != k { UnbrokenActive(t, k, i); }
    }
  }

  // ── The sweep ────────────────────────────────────────────────────────────

  lemma {:induction false} SameBound(t: seq<Row>, u: seq<Row>)
    requires |t| == |u| && forall i :: 0 <= i < |t| ==> u[i].h == t[i].h
    ensures HeightBound(u) == HeightBound(t)
    decreases |t|
  {
    if t != [] {
      SameBound(t[..|t| - 1], u[..|u| - 1]);
    }
  }

  lemma {:induction false} SettledNotDual(t: seq<Row>, u: seq<Row>, floor: nat, x: nat)
    requires Settled(t, u, floor) && floor <= x
    ensures !Dual(u, x)
  {
    assert OneAt(u, x);
  }

  /** What is dual after settling down to a floor is what was dual below it. */
  lemma {:induction false} DualsLeft(t: seq<Row>, u: seq<Row>, n: nat, floor: nat)
    requires Settled(t, u, floor) && floor <= n
    ensures DualsBelow(u, n) == DualsBelow(t, floor)
    decreases n
  {
    hide Dual;
    if floor < n {
      SettledNotDual(t, u, floor, n - 1);
      DualsLeft(t, u, n - 1, floor);
    } else if 0 < n {
      assert SameBelow(t, u, n);
      DualsSame(t, u, n, n);
    }
  }

  lemma {:induction false} DualsSame(t: seq<Row>, u: seq<Row>, m: nat, n: nat)
    requires SameBelow(t, u, m) && n <= m
    ensures DualsBelow(u, n) == DualsBelow(t, n)
    decreases n
  {
    hide Dual, SameBelow;
    if 0 < n {
      DualSame(t, u, m, n - 1);
      DualsSame(t, u, m, n - 1);
    }
  }

  /** The sweep settles the highest listed heights and leaves the others. */
  lemma {:induction false} SweepFloor(db: Db) returns (floor: nat)
    ensures floor <= HeightBound(db.rows) && Sweep(db) == SweepTo(db, HeightBound(db.rows), floor)
    ensures Settled(db.rows, Sweep(db).rows, floor)
    ensures Duals(Sweep(db).rows) == Duals(db.rows)[Min(|Duals(db.rows)|, 1000)..]
    ensures Sweep(db).pending == db.pending
  {
    var t := db.rows;
    var n := HeightBound(t);
    var m := Min(|Duals(t)|, HEIGHTS_PER_SWEEP);
    hide Dual, Dedupe, DualsBelow;
    SameRows(t, n);
    floor := ListIsSweep(t, db, n, m);
    NothingAbove(t);
    SweepSettles(t, db, n, floor);
    var u := Sweep(db).rows;
    SameBound(t, u);
    DualsLeft(t, u, n, floor);
    SweepPending(db, n, floor);
  }

  lemma {:induction false} SameRows(t: seq<Row>, n: nat)
    ensures SameBelow(t, t, n)
  {
  }

  lemma {:induction false} SweepPending(db: Db, n: nat, floor: nat)
    ensures SweepTo(db, n, floor).pending == db.pending
    decreases n
  {
    if floor < n {
      hide Kept;
      SweepPending(Dedupe(db, n - 1), n - 1, floor);
    }
  }

  /** One sweep of any store only takes rows off, leaves an active row at every
      height that had one, and leaves dual exactly the heights past the highest
      thousand. */
  lemma {:induction false} SweepSettlesTheHighest(db: Db)
    ensures var u := Sweep(db).rows;
            && TakesOff(db.rows, u)
            && (forall height: nat :: SomeAt(u, height) <==> SomeAt(db.rows, height))
            && Duals(u) == Duals(db.rows)[Min(|Duals(db.rows)|, 1000)..]
  {
    hide Duals, Sweep;
    var floor := SweepFloor(db);
    var t, u := db.rows, Sweep(db).rows;
    forall height: nat ensures SomeAt(u, height) <==> SomeAt(t, height) {
      if floor <= height {
        assert OneAt(u, height);
      } else {
        SomeSame(t, u, floor, height);
      }
    }
  }

  lemma {:induction false} SomeSame(t: seq<Row>, u: seq<Row>, n: nat, x: nat)
    requires SameBelow(t, u, n) && x < n
    ensures SomeAt(u, x) <==> SomeAt(t, x)
  {
    forall i: nat ensures ActiveAt(u, i, x) <==> ActiveAt(t, i, x) { ActiveSame(t, u, n, x, i); }
  }

  /** The row the sweep leaves at the highest active height keeps its whole
      unbroken active ancestry. */
  lemma {:induction false} SweepKeepsTheChain(db: Db, k: nat)
    requires Sound(Heads(db.rows)) && k < |db.rows|
    requires var u := Sweep(db).rows; k < |u| && u[k].active
    requires forall i :: 0 <= i < |db.rows| && db.rows[i].active ==> db.rows[i].h.height <= db.rows[k].h.height
    ensures var u := Sweep(db).rows;
            |u| == |db.rows| && forall i: nat :: i in Unbroken(db.rows, k) ==> u[i].active
  {
    hide Sweep, Sound, Unbroken, Settled, Duals;
    var floor := SweepFloor(db);
    TopAncestryStands(db, floor, k);
  }

  /** With at most a thousand dual heights one sweep ends with one active row at
      every height that had one, and a second sweep changes nothing. */
  lemma {:induction false} SweepIsOnce(db: Db)
    requires |Duals(db.rows)| <= 1000
    ensures forall height: nat {:trigger OneAt(Sweep(db).rows, height)} :: OneAt(Sweep(db).rows, height)
    ensures Sweep(Sweep(db)) == Sweep(db)
  {
    var u := Sweep(db).rows;
    SweepSettlesTheHighest(db);
    assert Duals(u) == [];
    hide Sweep;
    forall height: nat ensures OneAt(u, height) { NoDuals(u, height); }
    NothingToSweep(Sweep(db));
  }

  lemma {:induction false} NoDuals(t: seq<Row>, height: nat)
    requires Duals(t) == []
    ensures OneAt(t, height)
  {
    if height < HeightBound(t) {
      assert height !in Duals(t);
    }
  }

  lemma {:induction false} NothingToSweep(db: Db)
    requires Duals(db.rows) == []
    ensures Sweep(db) == db
  {
    assert Dedupes([]) == [];
    assert Duals(db.rows)[..0] == [];
    assert Run(db, []) == db;
  }
}
