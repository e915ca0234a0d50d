/** What a re-validated chain is worth, in the terms of the rules alone, and when
    a pass completes, starts and stops (src/storage.rs:2161-2300). */
module Revalidated {
  import opened Wrappers
  import opened Headers
  import opened HeaderTable
  import opened Live
  import opened Rules
  import opened Admission
  import R = Revalidate

  /** The headers of the unbroken active ancestry of row `w`, the oldest first. */
  ghost function ActiveLine(t: seq<Row>, w: nat): seq<Header>
    requires Sound(Heads(t)) && w < |t|
  {
    Backwards(Heads(t), Unbroken(t, w))
  }

  /** Active row `r` names row `w`, one below it, as its parent. */
  ghost predicate Names(t: seq<Row>, w: nat, r: nat) {
    w < |t| && r < |t| && t[r].active && t[r].h.height == t[w].h.height + 1 && t[r].h.prev == t[w].h.hash
  }

  /** It has its proof of work, the listed hash wherever its height is listed, and
      exactly the bits the rule asks for over the whole active ancestry of `w`. */
  ghost predicate Sure(p: Params, t: seq<Row>, w: nat, r: nat)
    requires Sound(Heads(t))
  {
    Names(t, w, r) && p.pow(t[r].h) && Obeys(p, ActiveLine(t, w), t[r].h)
  }

  /** Rows up from row `c`, each sure over the one before. */
  ghost predicate Stair(p: Params, t: seq<Row>, c: nat, rows: seq<nat>)
    requires Sound(Heads(t))
  {
    rows != [] && rows[0] == c && c < |t|
    && (forall k :: 0 < k < |rows| ==> Sure(p, t, rows[k - 1], rows[k]))
  }

  ghost predicate ReachedBy(p: Params, t: seq<Row>, c: nat, rows: seq<nat>, w: nat)
    requires Sound(Heads(t))
  {
    Stair(p, t, c, rows) && rows[|rows| - 1] == w
  }

  /** A stair leads from row `c` to a row at `height`. */
  ghost predicate Climbs(p: Params, t: seq<Row>, c: nat, height: nat)
    requires Sound(Heads(t))
  {
    exists rows: seq<nat>, w: nat :: ReachedBy(p, t, c, rows, w) && w < |t| && t[w].h.height == height
  }

  /** Why a pass stops above row `w`: no active row names it, or the row that does
      breaks a rule, the proof of work first. */
  ghost predicate Halts(p: Params, t: seq<Row>, w: nat, stop: R.Stop)
    requires Sound(Heads(t)) && w < |t|
  {
    match stop
    case NoLink(height) => height == t[w].h.height + 1 && forall r: nat :: !Names(t, w, r)
    case Broke(height, hash, fault) =>
      exists r: nat :: Names(t, w, r) && t[r].h.height == height && t[r].h.hash == hash
        && if !p.pow(t[r].h) then fault == HighHash else Breaks(p, ActiveLine(t, w), t[r].h, fault)
    case _ => false
  }

  // ── One row ──────────────────────────────────────────────────────────────

  lemma {:induction false} ActiveLineLinks(t: seq<Row>, w: nat)
    requires Sound(Heads(t)) && w < |t|
    ensures LinksOf(ActiveLine(t, w)) == R.AllLinks(t, w)
  {
    BackwardsLinks(Heads(t), Unbroken(t, w));
    hide Sound, Unbroken, Backwards, Links;
    assert Unbroken(t, w)[..|Unbroken(t, w)|] == Unbroken(t, w);
  }

  lemma {:induction false} ActiveLineApart(t: seq<Row>, w: nat)
    requires Sound(Heads(t)) && w < |t|
    ensures OneApart(ActiveLine(t, w))
  {
    var rows := Unbroken(t, w);
    var line := ActiveLine(t, w);
    hide Sound, Unbroken;
    forall k | 0 <= k < |line| ensures line[k].height == t[w].h.height + k + 1 - |rows| {
      var m := |rows| - 1 - k;
      assert line[|rows| - 1 - m] == Heads(t)[rows[m]];
    }
  }

  lemma {:induction false} VerdictSure(p: Params, t: seq<Row>, w: nat, r: nat)
    requires Sound(Heads(t)) && p.Ascending() && Names(t, w, r)
    ensures w < |t| && r < |t| && 0 < t[r].h.height
    ensures var v := R.Verdict(p, R.AllLinks(t, w), t[r].h);
            && (v.None? <==> Sure(p, t, w, r))
            && forall fault :: v == Some(fault) <==>
                 if !p.pow(t[r].h) then fault == HighHash else Breaks(p, ActiveLine(t, w), t[r].h, fault)
  {
    ActiveLineLinks(t, w);
    ActiveLineApart(t, w);
    ContextExact(p, ActiveLine(t, w), t[r].h);
    hide Sound, Heads, ActiveLine, R.AllLinks, Obeys, Breaks, CheckContext, LinksOf;
  }

  lemma {:induction false} NextNames(t: seq<Row>, w: nat)
    requires w < |t|
    ensures R.NextRow(t, w).Some? ==> Names(t, w, R.NextRow(t, w).value)
    ensures R.NextRow(t, w).None? ==> forall r: nat :: !Names(t, w, r)
  {
    hide R.NextFrom;
    forall r: nat | Names(t, w, r) ensures R.NextRow(t, w).Some? { assert ActiveAt(t, r, t[w].h.height + 1); }
  }

  // ── A walk ───────────────────────────────────────────────────────────────

  lemma {:induction false} StairAlone(p: Params, t: seq<Row>, c: nat)
    requires Sound(Heads(t)) && c < |t|
    ensures ReachedBy(p, t, c, [c], c)
  {
  }

  lemma {:induction false} StairOn(p: Params, t: seq<Row>, c: nat, r: nat, rows: seq<nat>, w: nat)
    requires Sound(Heads(t)) && c < |t| && Sure(p, t, c, r) && ReachedBy(p, t, r, rows, w)
    ensures ReachedBy(p, t, c, [c] + rows, w)
  {
    hide Sure, Sound, Heads;
  }

  lemma {:induction false} WalkStep(p: Params, t: seq<Row>, last: nat, hi: nat)
    requires Sound(Heads(t)) && p.Ascending() && last < |t|
    ensures hi <= t[last].h.height ==> R.Walk(p, t, last, hi) == (last, None)
    ensures t[last].h.height < hi && R.NextRow(t, last).None? ==>
              R.Walk(p, t, last, hi).0 == last && R.Walk(p, t, last, hi).1.Some?
              && Halts(p, t, last, R.Walk(p, t, last, hi).1.value)
    ensures t[last].h.height < hi && R.NextRow(t, last).Some? ==>
              var r := R.NextRow(t, last).value;
              Names(t, last, r)
              && if Sure(p, t, last, r) then R.Walk(p, t, last, hi) == R.Walk(p, t, r, hi)
                 else R.Walk(p, t, last, hi).0 == last && R.Walk(p, t, last, hi).1.Some?
                      && Halts(p, t, last, R.Walk(p, t, last, hi).1.value)
  {
    NextNames(t, last);
    if R.NextRow(t, last).Some? { VerdictSure(p, t, last, R.NextRow(t, last).value); }
    hide Sound, Heads, ActiveLine, R.AllLinks, Breaks, Sure, R.NextRow, R.Verdict, Names;
  }

  /** A walk climbs a stair, and stops only for a reason of the rules. */
  lemma {:induction false} WalkClimbs(p: Params, t: seq<Row>, last: nat, hi: nat) returns (rows: seq<nat>)
    requires Sound(Heads(t)) && p.Ascending() && last < |t|
    ensures var w := R.Walk(p, t, last, hi);
            ReachedBy(p, t, last, rows, w.0) && (w.1.Some? ==> Halts(p, t, w.0, w.1.value))
    decreases hi - t[last].h.height
  {
    hide *;
    WalkStep(p, t, last, hi);
    StairAlone(p, t, last);
    rows := [last];
    if t[last].h.height < hi && R.NextRow(t, last).Some? {
      var r := R.NextRow(t, last).value;
      NamesIn(t, last, r);
      if Sure(p, t, last, r) {
        var up := WalkClimbs(p, t, r, hi);
        StairOn(p, t, last, r, up, R.Walk(p, t, r, hi).0);
        rows := [last] + up;
      }
    }
  }

  lemma {:induction false} NamesIn(t: seq<Row>, w: nat, r: nat)
    requires Names(t, w, r)
    ensures w < |t| && r < |t| && t[r].active && t[r].h.height == t[w].h.height + 1
  {
  }

  /** One active row a height, above `lo` up to `hi`. */
  ghost predicate OneEach(t: seq<Row>, lo: nat, hi: nat) {
    forall i, j :: (0 <= i < |t| && 0 <= j < |t| && t[i].active && t[j].active
                    && lo < t[i].h.height <= hi && t[i].h.height == t[j].h.height) ==> i == j
  }

  lemma {:induction false} OnlyNext(t: seq<Row>, w: nat, r: nat, lo: nat, hi: nat)
    requires Names(t, w, r) && OneEach(t, lo, hi) && lo <= t[w].h.height < hi
    ensures R.NextRow(t, w) == Some(r)
  {
    NextNames(t, w);
    hide R.NextRow;
  }

  lemma {:induction false} StairUp(p: Params, t: seq<Row>, c: nat, rows: seq<nat>, w: nat)
    requires Sound(Heads(t)) && ReachedBy(p, t, c, rows, w)
    ensures w < |t| && c < |t| && t[c].h.height <= t[w].h.height
    ensures t[c].h.height == t[w].h.height ==> w == c
    ensures t[c].h.height < t[w].h.height ==> |rows| > 1 && Sure(p, t, c, rows[1]) && ReachedBy(p, t, rows[1], rows[1..], w)
    ensures t[w].h.height == t[c].h.height + |rows| - 1
    decreases |rows|
  {
    hide Sound, Heads, Obeys;
    if |rows| > 1 {
      assert Sure(p, t, rows[0], rows[1]);
      assert rows[1] < |t|;
      forall k | 0 < k < |rows[1..]| ensures Sure(p, t, rows[1..][k - 1], rows[1..][k]) {
        assert Sure(p, t, rows[(k + 1) - 1], rows[k + 1]);
      }
      StairUp(p, t, rows[1], rows[1..], w);
    }
  }

  /** Where one row a height is active, a stair is what the walk climbs. */
  lemma {:induction false} StairIsWalked(p: Params, t: seq<Row>, c: nat, rows: seq<nat>, w: nat, lo: nat, hi: nat)
    requires Sound(Heads(t)) && p.Ascending() && ReachedBy(p, t, c, rows, w) && c < |t| && w < |t|
    requires OneEach(t, lo, hi) && lo <= t[c].h.height && t[w].h.height == hi
    ensures R.Walk(p, t, c, hi) == (w, None)
    decreases |rows|
  {
    hide *;
    StairUp(p, t, c, rows, w);
    WalkStep(p, t, c, hi);
    if t[c].h.height < hi {
      SureNames(p, t, c, rows[1]);
      NamesIn(t, c, rows[1]);
      OnlyNext(t, c, rows[1], lo, hi);
      StairIsWalked(p, t, rows[1], rows[1..], w, lo, hi);
    }
  }

  lemma {:induction false} SureNames(p: Params, t: seq<Row>, w: nat, r: nat)
    requires Sound(Heads(t)) && Sure(p, t, w, r)
    ensures Names(t, w, r)
  {
  }

  // ── Passes ───────────────────────────────────────────────────────────────

  lemma {:induction false} PassedClimbs(p: Params, t: seq<Row>, c: nat, h: nat)
    requires Sound(Heads(t)) && p.Ascending() && c < |t| && 0 < h && R.Passed(p, t, c, h)
    ensures Climbs(p, t, c, h)
  {
    hide *;
    PassedTop(p, t, c, h);
    var w := R.Walk(p, t, c, h - 1).0;
    var r := R.NextRow(t, w).value;
    var below := WalkClimbs(p, t, c, h - 1);
    NamesIn(t, w, r);
    StairTop(p, t, c, below, w, r);
    ClimbsTo(p, t, c, below + [r], r);
  }

  lemma {:induction false} PassedTop(p: Params, t: seq<Row>, c: nat, h: nat)
    requires Sound(Heads(t)) && p.Ascending() && c < |t| && 0 < h && R.Passed(p, t, c, h)
    ensures var w := R.Walk(p, t, c, h - 1).0;
            R.NextRow(t, w).Some? && Names(t, w, R.NextRow(t, w).value) && Sure(p, t, w, R.NextRow(t, w).value)
            && t[R.NextRow(t, w).value].h.height == h
  {
    hide Sound, Heads, R.Walk, R.AllLinks, R.NextRow, R.Verdict, Sure, Names;
    var w := R.Walk(p, t, c, h - 1).0;
    NextNames(t, w);
    VerdictSure(p, t, w, R.NextRow(t, w).value);
  }

  lemma {:induction false} StairTop(p: Params, t: seq<Row>, c: nat, rows: seq<nat>, w: nat, r: nat)
    requires Sound(Heads(t)) && ReachedBy(p, t, c, rows, w) && Sure(p, t, w, r)
    ensures ReachedBy(p, t, c, rows + [r], r)
  {
    hide Sure, Sound, Heads;
  }

  lemma {:induction false} ClimbsTo(p: Params, t: seq<Row>, c: nat, rows: seq<nat>, w: nat)
    requires Sound(Heads(t)) && ReachedBy(p, t, c, rows, w) && w < |t|
    ensures Climbs(p, t, c, t[w].h.height)
  {
  }

  /** At every step of every budget, each height the ceiling admits above the
      start is reached from it by active rows that name the row below, have their
      proof of work and the listed hash, and carry the bits the rule asks for over
      their whole active ancestry. */
  lemma {:induction false} AdmittedRowsAreSure(p: Params, t: seq<Row>, v: R.Validation, tip: nat, anchor: nat, c: nat,
                                               budget: nat, n: nat, h: nat)
    requires R.Starts(p, t, v, tip, anchor, c) && R.Steady(p, t, tip, c) && p.Ascending() && 0 < budget && 0 < n
    requires Sound(Heads(t)) && tip < |t| && c < |t| && t[c].h.height < h <= t[tip].h.height
    requires R.ServedCeiling(R.Steps(p, t, v, budget, n)).Admits(h)
    ensures Climbs(p, t, c, h)
  {
    hide *;
    R.AdmittedRowsPassed(p, t, v, tip, anchor, c, budget, n, h);
    PassedClimbs(p, t, c, h);
  }

  lemma {:induction false} PassCompletes(p: Params, t: seq<Row>, tip: nat, c: nat)
    requires Sound(Heads(t)) && tip < |t| && c < |t| && t[c].h.height <= t[tip].h.height
    ensures var w := R.Walk(p, t, c, t[tip].h.height);
            && (R.Pass(p, t, tip, c).complete <==> w.1.None?)
            && R.Pass(p, t, tip, c).fault == w.1 && R.Pass(p, t, tip, c).at == Some(R.CursorOf(t, w.0))
            && (w.1.None? ==> t[w.0].h.height == t[tip].h.height)
  {
    hide Sound, Heads, R.Walk;
  }

  /** Where one row a height is active from the start up to the tip, the steps
      complete if and only if such rows lead from the start to the tip's height. */
  lemma {:induction false} CompletesExactly(p: Params, t: seq<Row>, v: R.Validation, tip: nat, anchor: nat, c: nat,
                                            budget: nat, n: nat)
    requires R.Starts(p, t, v, tip, anchor, c) && R.Steady(p, t, tip, c) && p.Ascending() && 0 < budget
    requires Sound(Heads(t)) && tip < |t| && c < |t| && t[tip].h.height - t[c].h.height <= n
    requires OneEach(t, t[c].h.height, t[tip].h.height)
    ensures R.Steps(p, t, v, budget, n).complete <==> Climbs(p, t, c, t[tip].h.height)
  {
    R.StartsIn(p, t, v, tip, anchor, c);
    hide *;
    R.AnyBudgetSameEnd(p, t, v, tip, anchor, c, budget, n);
    PassCompletes(p, t, tip, c);
    var up := WalkClimbs(p, t, c, t[tip].h.height);
    ClimbsTo(p, t, c, up, R.Walk(p, t, c, t[tip].h.height).0);
    if Climbs(p, t, c, t[tip].h.height) {
      var rows, w := StairOf(p, t, c, t[tip].h.height);
      StairIsWalked(p, t, c, rows, w, t[c].h.height, t[tip].h.height);
    }
  }

  /** The rows a walk to `mid` passes, a walk further on serves. */
  lemma {:induction false} LandedServes(p: Params, t: seq<Row>, tip: nat, c: nat, done: nat, w: nat)
    requires Sound(Heads(t)) && tip < |t| && c < |t| && w < |t| && t[c].h.height < t[tip].h.height
    requires t[c].h.height <= t[w].h.height <= Min(t[tip].h.height, t[c].h.height + done)
    requires R.Walk(p, t, c, t[w].h.height) == (w, None)
    ensures R.ServedCeiling(R.Landed(p, t, tip, c, done)).Admits(t[w].h.height)
  {
    R.WalkSplit(p, t, c, t[w].h.height, Min(t[tip].h.height, t[c].h.height + done));
    hide Sound, Heads, R.Walk;
  }

  lemma {:induction false} LandedWithin(p: Params, t: seq<Row>, tip: nat, c: nat, done: nat, h: nat)
    requires Sound(Heads(t)) && tip < |t| && c < |t| && t[c].h.height < t[tip].h.height && h <= t[tip].h.height
    requires R.ServedCeiling(R.Landed(p, t, tip, c, done)).Admits(h)
    ensures h <= t[c].h.height + done
  {
    R.LandingAdmits(p, t, tip, c, done, h);
    hide Sound, Heads, R.Walk, R.Landed;
  }

  /** Where one row a height is active, after `n` steps of `budget` rows the ceiling
      admits exactly the heights such rows lead to, `n * budget` rows up. */
  lemma {:induction false} CeilingIsExact(p: Params, t: seq<Row>, v: R.Validation, tip: nat, anchor: nat, c: nat,
                                          budget: nat, n: nat, h: nat)
    requires R.Starts(p, t, v, tip, anchor, c) && R.Steady(p, t, tip, c) && p.Ascending() && 0 < budget && 0 < n
    requires Sound(Heads(t)) && tip < |t| && c < |t| && t[c].h.height < h <= t[tip].h.height
    requires OneEach(t, t[c].h.height, t[tip].h.height)
    ensures R.ServedCeiling(R.Steps(p, t, v, budget, n)).Admits(h) <==>
              Climbs(p, t, c, h) && h <= t[c].h.height + R.Rows(n, budget)
  {
    R.StartsIn(p, t, v, tip, anchor, c);
    OneEachBelow(t, t[c].h.height, h, t[tip].h.height);
    hide *;
    R.StepsAreWalk(p, t, v, tip, anchor, c, budget, n);
    if R.ServedCeiling(R.Steps(p, t, v, budget, n)).Admits(h) {
      AdmittedRowsAreSure(p, t, v, tip, anchor, c, budget, n, h);
      LandedWithin(p, t, tip, c, R.Rows(n, budget), h);
    }
    if Climbs(p, t, c, h) && h <= t[c].h.height + R.Rows(n, budget) {
      var rows, w := StairOf(p, t, c, h);
      StairIsWalked(p, t, c, rows, w, t[c].h.height, h);
      MinBoth(t[tip].h.height, t[c].h.height + R.Rows(n, budget), h);
      LandedServes(p, t, tip, c, R.Rows(n, budget), w);
    }
  }

  lemma {:induction false} MinBoth(a: nat, b: nat, h: nat)
    requires h <= a && h <= b
    ensures h <= Min(a, b)
  {
  }

  lemma {:induction false} OneEachBelow(t: seq<Row>, lo: nat, mid: nat, hi: nat)
    requires OneEach(t, lo, hi) && mid <= hi
    ensures OneEach(t, lo, mid)
  {
  }

  lemma {:induction false} StairOf(p: Params, t: seq<Row>, c: nat, height: nat) returns (rows: seq<nat>, w: nat)
    requires Sound(Heads(t)) && Climbs(p, t, c, height)
    ensures ReachedBy(p, t, c, rows, w) && w < |t| && t[w].h.height == height
  {
    rows, w :| ReachedBy(p, t, c, rows, w) && w < |t| && t[w].h.height == height;
  }

  /** A pass that does not complete stops above a row such rows lead to, and the
      fault it records is the reason. */
  lemma {:induction false} FaultIsReal(p: Params, t: seq<Row>, v: R.Validation, tip: nat, anchor: nat, c: nat,
                                       budget: nat, n: nat) returns (rows: seq<nat>, w: nat)
    requires R.Starts(p, t, v, tip, anchor, c) && R.Steady(p, t, tip, c) && p.Ascending() && 0 < budget
    requires Sound(Heads(t)) && tip < |t| && c < |t| && t[tip].h.height - t[c].h.height <= n
    ensures var end := R.Steps(p, t, v, budget, n);
            && (end.complete <==> end.fault.None?)
            && w < |t| && ReachedBy(p, t, c, rows, w) && end.at == Some(R.Cursor(t[w].h.height, t[w].h.hash))
            && (end.fault.Some? ==> Halts(p, t, w, end.fault.value))
  {
    R.StartsIn(p, t, v, tip, anchor, c);
    CursorIs(t, R.Walk(p, t, c, t[tip].h.height).0);
    hide *;
    R.AnyBudgetSameEnd(p, t, v, tip, anchor, c, budget, n);
    PassCompletes(p, t, tip, c);
    rows := WalkClimbs(p, t, c, t[tip].h.height);
    w := R.Walk(p, t, c, t[tip].h.height).0;
  }

  lemma {:induction false} CursorIs(t: seq<Row>, i: nat)
    requires i < |t|
    ensures R.CursorOf(t, i) == R.Cursor(t[i].h.height, t[i].h.hash)
  {
  }

  // ── Where a pass starts ──────────────────────────────────────────────────

  /** Row `k` is the newest active row at a height. */
  ghost predicate NewestAt(t: seq<Row>, height: nat, k: nat) {
    ActiveAt(t, k, height) && forall j: nat :: k < j && ActiveAt(t, j, height) ==> false
  }

  /** No active row stands at a listed height, or it is above `top`. */
  ghost predicate Idle(t: seq<Row>, list: seq<(nat, Hash)>, top: nat, i: nat) {
    i < |list| && (top < list[i].0 || forall j: nat :: !ActiveAt(t, j, list[i].0))
  }

  /** Checkpoint `i` is the last of the list that is not above `top` and whose
      height holds an active row. */
  ghost predicate TopHeld(t: seq<Row>, list: seq<(nat, Hash)>, top: nat, i: nat) {
    i < |list| && !Idle(t, list, top, i) && forall j :: i < j < |list| ==> Idle(t, list, top, j)
  }

  /** The anchor is the row of the last checkpoint at or below the tip whose height
      holds an active row; that row carries the listed hash, or the pass stops. */
  ghost predicate AnchorIs(t: seq<Row>, list: seq<(nat, Hash)>, top: nat, r: R.Anchor) {
    match r
    case Held(row) => exists i: nat :: TopHeld(t, list, top, i) && NewestAt(t, list[i].0, row) && t[row].h.hash == list[i].1
    case Lost(Mismatch(height)) =>
      exists i: nat, row: nat ::
        TopHeld(t, list, top, i) && height == list[i].0 && NewestAt(t, height, row) && t[row].h.hash != list[i].1
    case Lost(NoCheckpointHeld) => forall i :: 0 <= i < |list| ==> Idle(t, list, top, i)
    case Lost(_) => false
  }

  lemma {:induction false} NewestExact(t: seq<Row>, height: nat)
    ensures var r := R.ActiveHeader(t, height);
            && (r.Some? ==> NewestAt(t, height, r.value))
            && (r.None? ==> forall j: nat :: !ActiveAt(t, j, height))
  {
    if t != [] && !ActiveAt(t, |t| - 1, height) {
      NewestExact(t[..|t| - 1], height);
      forall j: nat | ActiveAt(t, j, height) ensures ActiveAt(t[..|t| - 1], j, height) { }
      if R.ActiveHeader(t, height).Some? { assert ActiveAt(t[..|t| - 1], R.ActiveHeader(t, height).value, height); }
    }
  }

  lemma {:induction false} IdleShort(t: seq<Row>, list: seq<(nat, Hash)>, top: nat, n: nat, i: nat)
    requires i < n <= |list|
    ensures Idle(t, list[..n], top, i) <==> Idle(t, list, top, i)
  {
  }

  lemma {:induction false} AnchorExact(t: seq<Row>, list: seq<(nat, Hash)>, top: nat)
    ensures AnchorIs(t, list, top, R.FindAnchor(t, list, top))
    decreases |list|
  {
    hide R.ActiveHeader;
    if list != [] {
      var n := |list| - 1;
      NewestExact(t, list[n].0);
      hide NewestAt, ActiveAt;
      if R.ActiveHeader(t, list[n].0).Some? && list[n].0 <= top {
        assert TopHeld(t, list, top, n) by { NotIdle(t, list, top, n, R.ActiveHeader(t, list[n].0).value); }
      } else {
        AnchorExact(t, list[..n], top);
        AnchorOn(t, list, top, R.FindAnchor(t, list[..n], top));
      }
    }
  }

  lemma {:induction false} NotIdle(t: seq<Row>, list: seq<(nat, Hash)>, top: nat, i: nat, row: nat)
    requires i < |list| && list[i].0 <= top && NewestAt(t, list[i].0, row)
    ensures !Idle(t, list, top, i)
  {
  }

  lemma {:induction false} AnchorOn(t: seq<Row>, list: seq<(nat, Hash)>, top: nat, r: R.Anchor)
    requires list != [] && Idle(t, list, top, |list| - 1) && AnchorIs(t, list[..|list| - 1], top, r)
    ensures AnchorIs(t, list, top, r)
  {
    var n := |list| - 1;
    hide NewestAt, Idle;
    forall i: nat | i < n ensures Idle(t, list[..n], top, i) <==> Idle(t, list, top, i) { IdleShort(t, list, top, n, i); }
    forall i: nat | TopHeld(t, list[..n], top, i) ensures TopHeld(t, list, top, i) && list[..n][i] == list[i] { }
  }

  /** The `k`-th ancestor of row `i` is active, at or above the floor, and none
      nearer is. */
  ghost predicate FirstActive(t: seq<Row>, i: nat, floor: nat, k: nat, q: nat)
    requires Sound(Heads(t)) && i < |t|
  {
    && k < |Path(Heads(t), i)| && Path(Heads(t), i)[k] == q && q < |t| && t[q].active && floor <= t[q].h.height
    && forall m :: 0 < m < k ==> !t[Path(Heads(t), i)[m]].active
  }

  /** No ancestor within `steps`, at or above the floor, is active. */
  ghost predicate NoneActive(t: seq<Row>, i: nat, floor: nat, steps: nat)
    requires Sound(Heads(t)) && i < |t|
  {
    forall m :: 0 < m <= steps && m < |Path(Heads(t), i)| && floor <= t[Path(Heads(t), i)[m]].h.height
      ==> !t[Path(Heads(t), i)[m]].active
  }

  lemma {:induction false} ForkFirst(t: seq<Row>, i: nat, floor: nat, steps: nat) returns (k: nat)
    requires Sound(Heads(t)) && i < |t|
    ensures var r := R.ForkPoint(t, i, floor, steps);
            && (r.Some? ==> 0 < k <= steps && FirstActive(t, i, floor, k, r.value))
            && (r.None? ==> NoneActive(t, i, floor, steps))
    decreases steps
  {
    k := 0;
    if steps == 0 || Parent(Heads(t), i).None? {
      PathEnds(t, i);
    } else {
      var q := Parent(Heads(t), i).value;
      PathNext(t, i, q);
      var m := 0;
      if floor <= t[q].h.height && !t[q].active { m := ForkFirst(t, q, floor, steps - 1); }
      k := m + 1;
      hide Sound, Path, Heads, Parent;
    }
  }

  lemma {:induction false} PathEnds(t: seq<Row>, i: nat)
    requires Sound(Heads(t)) && i < |t|
    ensures Parent(Heads(t), i).None? ==> |Path(Heads(t), i)| == 1
  {
  }

  lemma {:induction false} PathNext(t: seq<Row>, i: nat, q: nat)
    requires Sound(Heads(t)) && i < |t| && Parent(Heads(t), i) == Some(q)
    ensures q < |t| && t[q].h.height < t[i].h.height && |Path(Heads(t), i)| == |Path(Heads(t), q)| + 1
    ensures Path(Heads(t), q)[0] == q
    ensures forall m {:trigger Path(Heads(t), i)[m]} :: 0 < m < |Path(Heads(t), i)| ==>
              Path(Heads(t), i)[m] == Path(Heads(t), q)[m - 1] && t[Path(Heads(t), i)[m]].h.height <= t[q].h.height
  {
    SoundPair(Heads(t), i, q);
    assert Path(Heads(t), i) == [i] + Path(Heads(t), q);
    hide Sound, Parent;
  }

  /** A pass resumes at the recorded row while it is active above the anchor; from a
      row off the chain, at its nearest active ancestor not below the anchor, at
      most 400 back; else at the anchor. */
  ghost predicate ResumesAt(t: seq<Row>, anchor: nat, at: Option<R.Cursor>, r: nat)
    requires Sound(Heads(t)) && anchor < |t|
  {
    if at.Some? && t[anchor].h.height < at.value.height && Holds(t, at.value.hash) then
      exists i: nat :: i < |t| && t[i].h.hash == at.value.hash
        && if t[i].active then r == i
           else || (exists k: nat :: 0 < k <= 400 && FirstActive(t, i, t[anchor].h.height, k, r))
                || (r == anchor && NoneActive(t, i, t[anchor].h.height, 400))
    else r == anchor
  }

  lemma {:induction false} ResumeExact(t: seq<Row>, anchor: nat, at: Option<R.Cursor>)
    requires Sound(Heads(t)) && anchor < |t| && t[anchor].active
    ensures ResumesAt(t, anchor, at, R.Resume(t, anchor, at))
  {
    if at.Some? && t[anchor].h.height < at.value.height {
      FindHolds(t, at.value.hash);
      if Holds(t, at.value.hash) {
        var i := Find(Heads(t), at.value.hash).value;
        assert t[i].h.hash == at.value.hash;
        var k := ForkFirst(t, i, t[anchor].h.height, 400);
        hide Sound, Heads, Find, FirstActive, NoneActive, R.ForkPoint, Holds;
      }
    }
  }
}
