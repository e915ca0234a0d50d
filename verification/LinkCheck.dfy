/** The link check (src/storage.rs:1642-1833): the active rows walked span by
    span, every height the row above does not name reported. */
module LinkCheck {
  import opened Wrappers
  import opened Headers
  import opened HeaderTable

  /** The most broken links one answer carries (src/storage.rs:1692-1693). */
  const MAX_BROKEN := 1000

  datatype BrokenLink = BrokenLink(height: nat, active: Option<Hash>, nextNames: Hash, next: Hash)

  datatype LinkReport = LinkReport(from: nat, to: nat, rows: nat, linked: bool,
                                   broken: seq<BrokenLink>, truncated: bool, checkedThrough: nat)

  // ── The broken links a read lists ────────────────────────────────────────

  /** The rows of the left join for child `c` whose parent is among the first
      `n` rows: an active row one below it with another hash. */
  function Strangers(t: seq<Row>, c: nat, n: nat): seq<BrokenLink>
    requires c < |t| && n <= |t| && 0 < t[c].h.height
  {
    if n == 0 then []
    else
      var below := t[c].h.height - 1;
      Strangers(t, c, n - 1)
      + if ActiveAt(t, n - 1, below) && t[n - 1].h.hash != t[c].h.prev
        then [BrokenLink(below, Some(t[n - 1].h.hash), t[c].h.prev, t[c].h.hash)] else []
  }

  /** What the read lists for one child (`SQL_BROKEN_LINKS`). */
  function BrokenUnder(t: seq<Row>, c: nat): seq<BrokenLink>
    requires c < |t| && 0 < t[c].h.height
  {
    if !SomeAt(t, t[c].h.height - 1)
    then [BrokenLink(t[c].h.height - 1, None, t[c].h.prev, t[c].h.hash)]
    else Strangers(t, c, |t|)
  }

  /** The children at one height, by id. */
  function BrokenAt(t: seq<Row>, height: nat, n: nat): seq<BrokenLink>
    requires n <= |t| && 0 < height
  {
    if n == 0 then []
    else BrokenAt(t, height, n - 1) + if ActiveAt(t, n - 1, height) then BrokenUnder(t, n - 1) else []
  }

  /** The children in `(lo, hi]`, by height. */
  function BrokenIn(t: seq<Row>, lo: nat, hi: nat): seq<BrokenLink>
    decreases hi
  {
    if hi <= lo then [] else BrokenIn(t, lo, hi - 1) + BrokenAt(t, hi, |t|)
  }

  lemma {:induction false} BrokenSplit(t: seq<Row>, lo: nat, mid: nat, hi: nat)
    requires lo <= mid <= hi
    ensures BrokenIn(t, lo, hi) == BrokenIn(t, lo, mid) + BrokenIn(t, mid, hi)
    decreases hi
  {
    hide BrokenAt;
    if mid < hi {
      BrokenSplit(t, lo, mid, hi - 1);
      assert BrokenIn(t, lo, mid) + BrokenIn(t, mid, hi) ==
             (BrokenIn(t, lo, mid) + BrokenIn(t, mid, hi - 1)) + BrokenAt(t, hi, |t|);
    } else {
      assert BrokenIn(t, mid, hi) == [];
    }
  }

  // ── The report ───────────────────────────────────────────────────────────

  function CountActive(t: seq<Row>, from: nat, to: nat): nat {
    if t == [] then 0
    else
      var row := t[|t| - 1];
      CountActive(t[..|t| - 1], from, to) + if row.active && from <= row.h.height <= to then 1 else 0
  }

  function LastHeight(t: seq<Row>, from: nat, to: Option<nat>): nat {
    var end := match to
      case Some(x) => x
      case None =>
        match HighestActive(t)
        case Some(k) => t[k].h.height
        case None => from;
    Max(end, from)
  }

  lemma {:induction false} LastAbove(t: seq<Row>, from: nat, to: Option<nat>)
    ensures from <= LastHeight(t, from, to)
  {
  }

  /** The answer in one read of the whole range. */
  function Report(t: seq<Row>, from: nat, to: Option<nat>): LinkReport {
    var end := LastHeight(t, from, to);
    var all := BrokenIn(t, from, end);
    var broken := all[..Min(|all|, MAX_BROKEN)];
    var truncated := MAX_BROKEN < |all|;
    LinkReport(from, end, CountActive(t, from, end), broken == [], broken, truncated,
               if truncated then broken[MAX_BROKEN - 1].height else end)
  }

  /** `link_check_spans` (src/storage.rs:1766-1833): whatever the span, and with
      the answer cut at a thousand entries, the report is that of one read. */
  method LinkCheckSpans(t: seq<Row>, from: nat, to: Option<nat>, span: nat) returns (report: LinkReport)
    ensures report == Report(t, from, to)
  {
    hide BrokenAt, CountActive, LastHeight;
    var end := LastHeight(t, from, to);
    assert from <= end by { LastAbove(t, from, to); }
    report := LinkReport(from, end, CountActive(t, from, end), false, [], false, end);
    var lo := from;
    while lo < end
      invariant from <= lo <= end
      invariant report == LinkReport(from, end, CountActive(t, from, end), false, BrokenIn(t, from, lo), false, end)
      invariant |report.broken| <= MAX_BROKEN
    {
      var hi := Min(lo + Max(span, 1), end);
      var room := MAX_BROKEN - |report.broken|;
      var listed := BrokenIn(t, lo, hi);
      var found := listed[..Min(|listed|, room + 1)];
      BrokenSplit(t, from, lo, hi);
      report := report.(truncated := |found| > room, broken := report.broken + found[..Min(|found|, room)]);
      if report.truncated {
        CutOff(t, from, lo, hi, end);
        report := report.(checkedThrough := report.broken[|report.broken| - 1].height);
        break;
      }
      lo := hi;
    }
    report := report.(linked := report.broken == []);
  }

  /** Past a thousand entries the answer is settled. */
  lemma {:induction false} CutOff(t: seq<Row>, from: nat, lo: nat, hi: nat, end: nat)
    requires from <= lo <= hi <= end && |BrokenIn(t, from, lo)| <= MAX_BROKEN
    requires MAX_BROKEN < |BrokenIn(t, from, lo)| + |BrokenIn(t, lo, hi)|
    ensures var all := BrokenIn(t, from, end);
            && MAX_BROKEN < |all|
            && all[..MAX_BROKEN] == BrokenIn(t, from, lo) + BrokenIn(t, lo, hi)[..MAX_BROKEN - |BrokenIn(t, from, lo)|]
  {
    hide BrokenIn;
    BrokenSplit(t, from, lo, hi);
    BrokenSplit(t, from, hi, end);
  }

  // ── What "linked" means ──────────────────────────────────────────────────

  /** Exactly one active row, and every active row above names it. */
  ghost predicate LinkedAt(t: seq<Row>, height: nat) {
    && SomeAt(t, height)
    && (forall p: nat, q: nat :: ActiveAt(t, p, height) && ActiveAt(t, q, height) ==> p == q)
    && (forall c: nat, p: nat :: ActiveAt(t, c, height + 1) && ActiveAt(t, p, height) ==> t[c].h.prev == t[p].h.hash)
  }

  lemma {:induction false} NoStrangers(t: seq<Row>, c: nat, n: nat)
    requires c < |t| && n <= |t| && 0 < t[c].h.height
    ensures Strangers(t, c, n) == [] <==>
            forall p: nat :: p < n && ActiveAt(t, p, t[c].h.height - 1) ==> t[p].h.hash == t[c].h.prev
  {
    if n > 0 { NoStrangers(t, c, n - 1); }
  }

  lemma {:induction false} NothingUnder(t: seq<Row>, c: nat)
    requires c < |t| && 0 < t[c].h.height
    ensures BrokenUnder(t, c) == [] <==>
            && SomeAt(t, t[c].h.height - 1)
            && (forall p: nat :: ActiveAt(t, p, t[c].h.height - 1) ==> t[p].h.hash == t[c].h.prev)
  {
    hide Strangers;
    NoStrangers(t, c, |t|);
  }

  lemma {:induction false} NothingAt(t: seq<Row>, height: nat, n: nat)
    requires n <= |t| && 0 < height
    ensures BrokenAt(t, height, n) == [] <==>
            forall c: nat :: c < n && ActiveAt(t, c, height) ==> BrokenUnder(t, c) == []
  {
    hide BrokenUnder;
    if n > 0 { NothingAt(t, height, n - 1); }
  }

  lemma {:induction false} NothingIn(t: seq<Row>, lo: nat, hi: nat, height: nat)
    requires BrokenIn(t, lo, hi) == [] && lo < height <= hi
    ensures BrokenAt(t, height, |t|) == []
    decreases hi
  {
    hide BrokenAt;
    if height < hi { NothingIn(t, lo, hi - 1, height); }
  }

  /** Nothing broken under a height that holds an active row. */
  lemma {:induction false} LinkedBelow(t: seq<Row>, height: nat)
    requires Sound(Heads(t)) && SomeAt(t, height + 1) && BrokenAt(t, height + 1, |t|) == []
    ensures LinkedAt(t, height)
  {
    hide BrokenAt, BrokenUnder, Sound;
    NothingAt(t, height + 1, |t|);
    forall c: nat | ActiveAt(t, c, height + 1)
      ensures SomeAt(t, height)
      ensures forall p: nat :: ActiveAt(t, p, height) ==> t[p].h.hash == t[c].h.prev
    {
      NothingUnder(t, c);
    }
    forall p: nat, q: nat | ActiveAt(t, p, height) && ActiveAt(t, q, height) ensures p == q {
      SoundPair(Heads(t), p, q);
    }
  }

  lemma {:induction false} LinkedDown(t: seq<Row>, from: nat, end: nat, height: nat)
    requires Sound(Heads(t)) && BrokenIn(t, from, end) == [] && from <= height < end
    requires SomeAt(t, end)
    ensures LinkedAt(t, height)
    decreases end - height
  {
    hide BrokenIn, BrokenAt, Sound;
    if height + 1 < end { LinkedDown(t, from, end, height + 1); }
    NothingIn(t, from, end, height + 1);
    LinkedBelow(t, height);
  }

  lemma {:induction false} LinkedNothing(t: seq<Row>, height: nat)
    requires LinkedAt(t, height)
    ensures BrokenAt(t, height + 1, |t|) == []
  {
    hide BrokenAt, BrokenUnder;
    NothingAt(t, height + 1, |t|);
    forall c: nat | c < |t| && ActiveAt(t, c, height + 1) ensures BrokenUnder(t, c) == [] {
      NothingUnder(t, c);
    }
  }

  lemma {:induction false} AllLinkedNothing(t: seq<Row>, from: nat, end: nat)
    requires forall height: nat {:trigger LinkedAt(t, height)} :: from <= height < end ==> LinkedAt(t, height)
    ensures BrokenIn(t, from, end) == []
    decreases end
  {
    hide BrokenAt, LinkedAt;
    if end > from {
      assert LinkedAt(t, end - 1);
      LinkedNothing(t, end - 1);
      AllLinkedNothing(t, from, end - 1);
    }
  }

  /** With an active row at `to` the report says "linked" exactly when every
      height in `[from, end)` holds one active row and every active row above
      names it. */
  lemma {:induction false} LinkedMeans(t: seq<Row>, from: nat, end: nat)
    requires Sound(Heads(t)) && from <= end && SomeAt(t, end)
    ensures Report(t, from, Some(end)).to == end
    ensures Report(t, from, Some(end)).linked <==>
            forall height: nat {:trigger LinkedAt(t, height)} :: from <= height < end ==> LinkedAt(t, height)
  {
    hide Sound, BrokenIn, LinkedAt, CountActive;
    if BrokenIn(t, from, end) == [] {
      forall height: nat | from <= height < end ensures LinkedAt(t, height) { LinkedDown(t, from, end, height); }
    }
    if forall height: nat {:trigger LinkedAt(t, height)} :: from <= height < end ==> LinkedAt(t, height) {
      AllLinkedNothing(t, from, end);
    }
  }

  // ── What an entry tells ──────────────────────────────────────────────────

  /** The entry of an active row `c`: it names a parent that is not what is active one
      below, the active row there or that there is none. */
  ghost predicate Tells(t: seq<Row>, c: nat, x: BrokenLink) {
    && c < |t| && t[c].active && t[c].h.height == x.height + 1 && x.next == t[c].h.hash && x.nextNames == t[c].h.prev
    && match x.active
       case None => !SomeAt(t, x.height)
       case Some(hash) => hash != x.nextNames && exists p: nat :: ActiveAt(t, p, x.height) && t[p].h.hash == hash
  }

  lemma {:induction false} StrangersExact(t: seq<Row>, c: nat, n: nat, x: BrokenLink)
    requires c < |t| && n <= |t| && 0 < t[c].h.height
    ensures x in Strangers(t, c, n) <==>
              && x.height == t[c].h.height - 1 && x.next == t[c].h.hash && x.nextNames == t[c].h.prev && x.active.Some?
              && x.active.value != x.nextNames
              && exists p: nat :: p < n && ActiveAt(t, p, x.height) && t[p].h.hash == x.active.value
  {
    if n > 0 {
      StrangersExact(t, c, n - 1, x);
      hide ActiveAt;
      var below := t[c].h.height - 1;
      var last := if ActiveAt(t, n - 1, below) && t[n - 1].h.hash != t[c].h.prev
                  then [BrokenLink(below, Some(t[n - 1].h.hash), t[c].h.prev, t[c].h.hash)] else [];
      assert x in Strangers(t, c, n) <==> x in Strangers(t, c, n - 1) || x in last;
    }
  }

  lemma {:induction false} UnderExact(t: seq<Row>, c: nat, x: BrokenLink)
    requires c < |t| && t[c].active && 0 < t[c].h.height
    ensures x in BrokenUnder(t, c) <==> Tells(t, c, x)
  {
    StrangersExact(t, c, |t|, x);
    hide Strangers;
  }

  lemma {:induction false} AtExact(t: seq<Row>, height: nat, n: nat, x: BrokenLink)
    requires n <= |t| && 0 < height
    ensures x in BrokenAt(t, height, n) <==> x.height + 1 == height && exists c: nat :: c < n && Tells(t, c, x)
  {
    if n > 0 {
      AtExact(t, height, n - 1, x);
      if ActiveAt(t, n - 1, height) { UnderExact(t, n - 1, x); }
      hide BrokenUnder;
    }
  }

  /** A report lists every broken link of its range, or the first thousand when
      there are more; then it says so, and the height of the last it lists. */
  lemma {:induction false} ReportExact(t: seq<Row>, from: nat, to: Option<nat>)
    ensures var r := Report(t, from, to);
            && (forall x :: x in r.broken ==> from <= x.height < r.to && exists c: nat :: Tells(t, c, x))
            && (r.truncated <==> 1000 < |BrokenIn(t, from, r.to)|)
            && (if r.truncated then
                  |r.broken| == 1000 && r.checkedThrough == r.broken[999].height && r.broken == BrokenIn(t, from, r.to)[..1000]
                else
                  r.checkedThrough == r.to
                  && forall x: BrokenLink, c: nat :: from <= x.height < r.to && Tells(t, c, x) ==> x in r.broken)
            && (r.linked <==> r.broken == []) && (r.linked ==> !r.truncated)
  {
    var r := Report(t, from, to);
    var all := BrokenIn(t, from, r.to);
    hide BrokenIn, CountActive, LastHeight, Tells;
    forall x | x in r.broken ensures from <= x.height < r.to && exists c: nat :: Tells(t, c, x) {
      assert x in all;
      BrokenExact(t, from, r.to, x);
    }
    if !r.truncated {
      assert r.broken == all;
      forall x: BrokenLink, c: nat | from <= x.height < r.to && Tells(t, c, x) ensures x in r.broken {
        BrokenExact(t, from, r.to, x);
      }
    }
  }

  /** The range lists exactly the broken links of its heights, each as it is. */
  lemma {:induction false} BrokenExact(t: seq<Row>, lo: nat, hi: nat, x: BrokenLink)
    ensures x in BrokenIn(t, lo, hi) <==> lo <= x.height < hi && exists c: nat :: Tells(t, c, x)
    decreases hi
  {
    if lo < hi {
      BrokenExact(t, lo, hi - 1, x);
      AtExact(t, hi, |t|, x);
      hide BrokenAt;
    }
  }

  // ── The row count ────────────────────────────────────────────────────────

  lemma {:induction false} CountSplit(t: seq<Row>, from: nat, end: nat)
    requires from < end
    ensures CountActive(t, from, end) == CountActive(t, from, from) + CountActive(t, from + 1, end)
  {
    if t != [] { CountSplit(t[..|t| - 1], from, end); }
  }

  lemma {:induction false} CountNone(t: seq<Row>, height: nat)
    requires forall i: nat :: !ActiveAt(t, i, height)
    ensures CountActive(t, height, height) == 0
  {
    if t != [] {
      var n := |t| - 1;
      assert !ActiveAt(t, n, height);
      forall i: nat ensures !ActiveAt(t[..n], i, height) { assert !ActiveAt(t, i, height); }
      CountNone(t[..n], height);
    }
  }

  lemma {:induction false} CountOne(t: seq<Row>, height: nat, p: nat)
    requires ActiveAt(t, p, height) && forall q: nat :: ActiveAt(t, q, height) ==> q == p
    ensures CountActive(t, height, height) == 1
  {
    var n := |t| - 1;
    if p == n {
      forall i: nat ensures !ActiveAt(t[..n], i, height) { assert ActiveAt(t, i, height) ==> i == p; }
      CountNone(t[..n], height);
    } else {
      assert ActiveAt(t, n, height) ==> n == p;
      assert ActiveAt(t[..n], p, height);
      forall q: nat | ActiveAt(t[..n], q, height) ensures q == p { assert ActiveAt(t, q, height); }
      CountOne(t[..n], height, p);
    }
  }

  /** The report's count: one a height below `to`, and the active rows at `to`. */
  lemma {:induction false} RowsOfLinked(t: seq<Row>, from: nat, end: nat)
    requires from <= end
    requires forall height: nat {:trigger LinkedAt(t, height)} :: from <= height < end ==> LinkedAt(t, height)
    ensures CountActive(t, from, end) == (end - from) + CountActive(t, end, end)
    decreases end - from
  {
    hide CountActive;
    if end > from {
      assert LinkedAt(t, from);
      var p: nat :| ActiveAt(t, p, from);
      CountOne(t, from, p);
      CountSplit(t, from, end);
      RowsOfLinked(t, from + 1, end);
    }
  }

  /** A linked report over an active row at `to` counts one row a height below it. */
  lemma {:induction false} LinkedRows(t: seq<Row>, from: nat, end: nat)
    requires Sound(Heads(t)) && from <= end && SomeAt(t, end)
    requires Report(t, from, Some(end)).linked
    ensures Report(t, from, Some(end)).rows == (end - from) + CountActive(t, end, end)
  {
    hide Sound, LinkedAt, CountActive, BrokenIn;
    LinkedMeans(t, from, end);
    RowsOfLinked(t, from, end);
  }

  // ── Asked again from where the answer stopped ────────────────────────────

  lemma {:induction false} StrangersHeights(t: seq<Row>, c: nat, n: nat)
    requires c < |t| && n <= |t| && 0 < t[c].h.height
    ensures forall i :: 0 <= i < |Strangers(t, c, n)| ==> Strangers(t, c, n)[i].height == t[c].h.height - 1
  {
    if n > 0 { StrangersHeights(t, c, n - 1); }
  }

  lemma {:induction false} HeightsAt(t: seq<Row>, height: nat, n: nat)
    requires n <= |t| && 0 < height
    ensures forall i :: 0 <= i < |BrokenAt(t, height, n)| ==> BrokenAt(t, height, n)[i].height == height - 1
  {
    if n > 0 {
      HeightsAt(t, height, n - 1);
      if ActiveAt(t, n - 1, height) { StrangersHeights(t, n - 1, |t|); }
      hide Strangers;
    }
  }

  /** The read over `(lo, hi]` lists heights from `lo` up to below `hi`. */
  ghost predicate Between(list: seq<BrokenLink>, lo: nat, hi: nat) {
    forall i :: 0 <= i < |list| ==> lo <= list[i].height < hi
  }

  lemma {:induction false} HeightsIn(t: seq<Row>, lo: nat, hi: nat)
    ensures Between(BrokenIn(t, lo, hi), lo, hi)
    decreases hi
  {
    if lo < hi {
      hide BrokenAt;
      HeightsIn(t, lo, hi - 1);
      HeightsAt(t, hi, |t|);
    }
  }

  lemma {:induction false} BrokenOne(t: seq<Row>, height: nat)
    ensures BrokenIn(t, height, height + 1) == BrokenAt(t, height + 1, |t|)
  {
    hide BrokenAt;
    assert BrokenIn(t, height, height) == [];
  }

  /** The entries of an answer under a height. */
  function Under(list: seq<BrokenLink>, height: nat): seq<BrokenLink> {
    if list == [] then []
    else
      var n := |list| - 1;
      Under(list[..n], height) + if list[n].height < height then [list[n]] else []
  }

  lemma {:induction false} UnderAll(list: seq<BrokenLink>, height: nat)
    requires forall i :: 0 <= i < |list| ==> list[i].height < height
    ensures Under(list, height) == list
  {
    if list != [] { UnderAll(list[..|list| - 1], height); }
  }

  lemma {:induction false} UnderJoin(a: seq<BrokenLink>, b: seq<BrokenLink>, height: nat)
    requires forall i :: 0 <= i < |b| ==> height <= b[i].height
    ensures Under(a + b, height) == Under(a, height)
    decreases |b|
  {
    if b == [] {
      assert a + b == a;
    } else {
      var n := |b| - 1;
      assert (a + b)[..|a| + n] == a + b[..n] && (a + b)[|a| + n] == b[n];
      UnderJoin(a, b[..n], height);
    }
  }

  /** A cut answer: it lists every broken link under `checkedThrough`, and some
      of those at that height. */
  lemma {:induction false} CutAnswer(t: seq<Row>, from: nat, end: nat)
    requires from <= end && MAX_BROKEN < |BrokenIn(t, from, end)|
    ensures var stop := BrokenIn(t, from, end)[MAX_BROKEN - 1].height;
            && from <= stop < end
            && |BrokenIn(t, from, stop)| < MAX_BROKEN <= |BrokenIn(t, from, stop)| + |BrokenAt(t, stop + 1, |t|)|
            && Under(BrokenIn(t, from, end)[..MAX_BROKEN], stop) == BrokenIn(t, from, stop)
  {
    hide BrokenIn, BrokenAt, Under;
    var all := BrokenIn(t, from, end);
    HeightsIn(t, from, end);
    var stop := all[MAX_BROKEN - 1].height;
    BrokenSplit(t, from, stop, end);
    BrokenSplit(t, stop, stop + 1, end);
    HeightsIn(t, from, stop);
    HeightsIn(t, stop, stop + 1);
    HeightsIn(t, stop + 1, end);
    BrokenOne(t, stop);
    var low, at, high := BrokenIn(t, from, stop), BrokenIn(t, stop, stop + 1), BrokenIn(t, stop + 1, end);
    StopsAt(all, low, at, high, stop);
  }

  lemma {:induction false} StopsAt(all: seq<BrokenLink>, low: seq<BrokenLink>, at: seq<BrokenLink>, high: seq<BrokenLink>, stop: nat)
    requires all == low + (at + high) && MAX_BROKEN < |all| && all[MAX_BROKEN - 1].height == stop
    requires Between(low, 0, stop) && Between(at, stop, stop + 1)
    requires forall i :: 0 <= i < |high| ==> stop < high[i].height
    ensures |low| < MAX_BROKEN <= |low| + |at| && Under(all[..MAX_BROKEN], stop) == low
  {
    assert forall i :: |low| + |at| <= i < |all| ==> all[i] == high[i - |low| - |at|];
    assert |low| < MAX_BROKEN;
    var part := at[..MAX_BROKEN - |low|];
    assert all[..MAX_BROKEN] == low + part;
    UnderJoin(low, part, stop);
    UnderAll(low, stop);
  }

  /** Asked again and again from `checkedThrough`, of each cut answer the entries
      under that height kept: all that is listed, and whether the asking came to
      an uncut answer instead of the same question again. */
  ghost function Asked(t: seq<Row>, from: nat, end: nat): (seq<BrokenLink>, bool)
    requires from <= end
    decreases end - from
  {
    var r := Report(t, from, Some(end));
    if !r.truncated then (r.broken, true)
    else if r.checkedThrough <= from then (r.broken, false)
    else
      CutAnswer(t, from, end);
      var (rest, whole) := Asked(t, r.checkedThrough, end);
      (Under(r.broken, r.checkedThrough) + rest, whole)
  }

  /** One height fills an answer, and is not the end of the list. */
  ghost predicate Crowded(t: seq<Row>, height: nat, end: nat)
    requires 0 < height
  {
    MAX_BROKEN <= |BrokenAt(t, height, |t|)| && MAX_BROKEN < |BrokenIn(t, height - 1, end)|
  }

  lemma {:induction false} AskedCut(t: seq<Row>, from: nat, end: nat)
    requires from <= end && MAX_BROKEN < |BrokenIn(t, from, end)|
    ensures var stop := BrokenIn(t, from, end)[MAX_BROKEN - 1].height;
            && from <= stop < end
            && Asked(t, from, end) ==
                 if stop == from then (BrokenIn(t, from, end)[..MAX_BROKEN], false)
                 else (BrokenIn(t, from, stop) + Asked(t, stop, end).0, Asked(t, stop, end).1)
  {
    CutAnswer(t, from, end);
    hide BrokenIn, BrokenAt, Under, CountActive;
  }

  lemma {:induction false} AskedUncut(t: seq<Row>, from: nat, end: nat)
    requires from <= end && |BrokenIn(t, from, end)| <= MAX_BROKEN
    ensures Asked(t, from, end) == (BrokenIn(t, from, end), true)
    ensures forall height: nat :: from < height <= end ==> !Crowded(t, height, end)
  {
    hide BrokenAt, CountActive, BrokenIn;
    assert BrokenIn(t, from, end)[..|BrokenIn(t, from, end)|] == BrokenIn(t, from, end);
    forall height: nat | from < height <= end ensures !Crowded(t, height, end) {
      BrokenSplit(t, from, height - 1, end);
    }
  }

  /** Asking again from `checkedThrough` loses no broken link: it comes to an end
      with every one listed once, in order, if and only if no height fills an
      answer before the last; where one does, the same question is asked again. */
  lemma {:induction false} AskedExact(t: seq<Row>, from: nat, end: nat)
    requires from <= end
    ensures Asked(t, from, end).1 <==> forall height: nat :: from < height <= end ==> !Crowded(t, height, end)
    ensures Asked(t, from, end).1 ==> Asked(t, from, end).0 == BrokenIn(t, from, end)
    decreases end - from
  {
    if |BrokenIn(t, from, end)| <= MAX_BROKEN {
      AskedUncut(t, from, end);
    } else {
      AskedCut(t, from, end);
      CutAnswer(t, from, end);
      var stop := BrokenIn(t, from, end)[MAX_BROKEN - 1].height;
      hide BrokenIn, BrokenAt, Under, Asked;
      if stop == from {
        assert BrokenIn(t, from, stop) == [] by { NothingBetween(t, from); }
        assert Crowded(t, from + 1, end);
      } else {
        AskedExact(t, stop, end);
        BrokenSplit(t, from, stop, end);
        forall height: nat | from < height <= stop ensures !Crowded(t, height, end) {
          NotCrowdedUnder(t, from, stop, height);
        }
      }
    }
  }

  lemma {:induction false} NothingBetween(t: seq<Row>, height: nat)
    ensures BrokenIn(t, height, height) == []
  {
  }

  lemma {:induction false} NotCrowdedUnder(t: seq<Row>, from: nat, stop: nat, height: nat)
    requires from < height <= stop && |BrokenIn(t, from, stop)| < MAX_BROKEN
    ensures |BrokenAt(t, height, |t|)| < MAX_BROKEN
  {
    hide BrokenIn, BrokenAt;
    BrokenSplit(t, from, height - 1, stop);
    BrokenSplit(t, height - 1, height, stop);
    BrokenOne(t, height - 1);
  }
}
