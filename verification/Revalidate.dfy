/** The re-validation of the stored chain in chunks (src/storage.rs:1974-2300). */
module Revalidate {
  import opened Wrappers
  import opened Headers
  import opened HeaderTable
  import opened Live

  // ── The stored state ─────────────────────────────────────────────────────

  datatype Stop =
    | NoCheckpointHeld
    | Mismatch(checkpoint: nat)
    | NoLink(height: nat)
    | Broke(height: nat, hash: Hash, fault: Fault)

  datatype Cursor = Cursor(height: nat, hash: Hash)

  /** The validation columns of `sync_state`. */
  datatype Validation = Validation(at: Option<Cursor>, fault: Option<Stop>, complete: bool)

  const UNVALIDATED := Validation(None, None, false)

  /** How far the store may be served (src/storage.rs:2013-2047). */
  datatype Ceiling = All | UpTo(height: nat) | Nothing {
    predicate Admits(h: nat) {
      match this
      case All => true
      case UpTo(c) => h <= c
      case Nothing => false
    }
  }

  function ServedCeiling(v: Validation): Ceiling {
    if v.complete then All
    else match v.at
      case Some(c) => UpTo(c.height)
      case None => Nothing
  }

  function CursorOf(t: seq<Row>, i: nat): Cursor
    requires i < |t|
  {
    Cursor(t[i].h.height, t[i].h.hash)
  }

  // ── Reads ────────────────────────────────────────────────────────────────

  /** The newest active row at a height (`sql_active_header_for_height`). */
  function ActiveHeader(t: seq<Row>, height: nat): (r: Option<nat>)
    ensures r.Some? ==> ActiveAt(t, r.value, height)
    ensures r.None? ==> forall i :: 0 <= i < |t| ==> !(t[i].active && t[i].h.height == height)
  {
    if t == [] then None
    else if ActiveAt(t, |t| - 1, height) then Some(|t| - 1) else ActiveHeader(t[..|t| - 1], height)
  }

  /** The first of the active rows one above `i` that names it. */
  function NextRow(t: seq<Row>, i: nat): (r: Option<nat>)
    requires i < |t|
    ensures r.Some? ==> r.value < |t| && t[r.value].active
    ensures r.Some? ==> t[r.value].h.height == t[i].h.height + 1 && t[r.value].h.prev == t[i].h.hash
    ensures r.None? ==> forall j: nat :: ActiveAt(t, j, t[i].h.height + 1) ==> t[j].h.prev != t[i].h.hash
  {
    NextFrom(t, i, 0)
  }

  function NextFrom(t: seq<Row>, i: nat, j: nat): (r: Option<nat>)
    requires i < |t| && j <= |t|
    ensures r.Some? ==> r.value < |t| && t[r.value].active
    ensures r.Some? ==> t[r.value].h.height == t[i].h.height + 1 && t[r.value].h.prev == t[i].h.hash
    ensures r.None? ==> forall k: nat :: j <= k && ActiveAt(t, k, t[i].h.height + 1) ==> t[k].h.prev != t[i].h.hash
    decreases |t| - j
  {
    if j == |t| then None
    else if ActiveAt(t, j, t[i].h.height + 1) && t[j].h.prev == t[i].h.hash then Some(j)
    else NextFrom(t, i, j + 1)
  }

  // ── One step ─────────────────────────────────────────────────────────────

  /** The anchor: the highest listed checkpoint at or below the tip whose height
      holds an active row; the row must carry its hash. */
  datatype Anchor = Held(row: nat) | Lost(stop: Stop)

  function FindAnchor(t: seq<Row>, list: seq<(nat, Hash)>, tip: nat): (r: Anchor)
    ensures r.Held? ==> r.row < |t| && t[r.row].active && t[r.row].h.height <= tip
    decreases |list|
  {
    if list == [] then Lost(NoCheckpointHeld)
    else
      var (height, hash) := list[|list| - 1];
      var row := ActiveHeader(t, height);
      if tip < height || row.None? then FindAnchor(t, list[..|list| - 1], tip)
      else if t[row.value].h.hash != hash then Lost(Mismatch(height))
      else Held(row.value)
  }

  /** From a row off the active chain, at most `steps` parents back, to the first
      active one at or above the anchor's height. */
  function ForkPoint(t: seq<Row>, i: nat, floor: nat, steps: nat): (r: Option<nat>)
    requires i < |t|
    ensures r.Some? ==> r.value < |t| && t[r.value].active && floor <= t[r.value].h.height
    decreases steps
  {
    if steps == 0 then None
    else match Parent(Heads(t), i)
      case Some(q) =>
        if t[q].h.height < floor then None else if t[q].active then Some(q) else ForkPoint(t, q, floor, steps - 1)
      case None => None
  }

  /** Where the step resumes (src/storage.rs:2204-2227). */
  function Resume(t: seq<Row>, anchor: nat, at: Option<Cursor>): (r: nat)
    requires anchor < |t| && t[anchor].active
    ensures r < |t| && t[r].active
  {
    if at.None? || at.value.height <= t[anchor].h.height then anchor
    else
      match Find(Heads(t), at.value.hash)
      case None => anchor
      case Some(i) =>
        if t[i].active then i
        else match ForkPoint(t, i, t[anchor].h.height, 400)
          case Some(q) => q
          case None => anchor
  }

  /** What a row answers to, over the links held below it. */
  function Verdict(p: Params, links: seq<Link>, h: Header): Option<Fault>
    requires 0 < h.height
  {
    if !p.pow(h) then Some(HighHash) else CheckContext(p, links, h)
  }

  /** The links of the first `e` rows of the active ancestry of row `i`. */
  ghost function RowLinks(t: seq<Row>, i: nat, e: nat): seq<Link>
    requires Sound(Heads(t)) && i < |t| && e <= |Unbroken(t, i)|
  {
    Links(Heads(t), Unbroken(t, i)[..e])
  }

  ghost function AllLinks(t: seq<Row>, i: nat): seq<Link>
    requires Sound(Heads(t)) && i < |t|
  {
    RowLinks(t, i, |Unbroken(t, i)|)
  }

  /** The run of active ancestors that ends at row `i`, at most `depth` of them. */
  ghost function WindowBelow(t: seq<Row>, i: nat, depth: nat): seq<Link>
    requires Sound(Heads(t)) && i < |t|
  {
    RowLinks(t, i, Min(|Unbroken(t, i)|, depth))
  }

  /** Rows checked upwards from `last` to height `hi`, the window growing: the
      last that passed, and the stop. */
  function Chunk(p: Params, t: seq<Row>, links: seq<Link>, last: nat, hi: nat): (r: (nat, Option<Stop>))
    requires last < |t|
    ensures r.0 < |t| && (t[last].active ==> t[r.0].active)
    ensures t[last].h.height <= t[r.0].h.height && (t[last].h.height <= hi ==> t[r.0].h.height <= hi)
    ensures r.1.None? && t[last].h.height <= hi ==> t[r.0].h.height == hi
    decreases hi - t[last].h.height
  {
    if hi <= t[last].h.height then (last, None)
    else
      match NextRow(t, last)
      case None => (last, Some(NoLink(t[last].h.height + 1)))
      case Some(r) =>
        var v := Verdict(p, links, t[r].h);
        if v.Some? then (last, Some(Broke(t[r].h.height, t[r].h.hash, v.value)))
        else Chunk(p, t, links + [LinkOf(t[r].h)], r, hi)
  }

  /** `revalidate_step` (src/storage.rs:2161-2300). */
  ghost function Step(p: Params, t: seq<Row>, v: Validation, budget: nat): Validation
    requires Sound(Heads(t))
  {
    if v.complete || v.fault.Some? then v
    else
      match ChainTip(t)
      case None => Validation(None, None, true)
      case Some(tip) =>
        match FindAnchor(t, p.checkpoints, t[tip].h.height)
        case Lost(stop) => Validation(None, Some(stop), false)
        case Held(anchor) =>
          var cursor := Resume(t, anchor, v.at);
          if t[tip].h.height <= t[cursor].h.height then Validation(Some(CursorOf(t, tip)), None, true)
          else
            var hi := Min(t[tip].h.height, t[cursor].h.height + budget);
            var links := WindowBelow(t, cursor, Max(p.depth(t[cursor].h.height), 1));
            var (last, stop) := Chunk(p, t, links, cursor, hi);
            Validation(Some(CursorOf(t, last)), stop, stop.None? && t[tip].h.height <= t[last].h.height)
  }

  /** The records a step writes, in order: the cursor it resumes at when that is
      not the stored one, before the rows are read, and then its answer
      (src/storage.rs:2229-2233). */
  ghost function Records(p: Params, t: seq<Row>, v: Validation, budget: nat): seq<Validation>
    requires Sound(Heads(t))
  {
    if v.complete || v.fault.Some? then []
    else Moved(t, p.checkpoints, v) + [Step(p, t, v, budget)]
  }

  ghost function Moved(t: seq<Row>, checkpoints: seq<(nat, Hash)>, v: Validation): seq<Validation> {
    match ChainTip(t)
    case None => []
    case Some(tip) =>
      match FindAnchor(t, checkpoints, t[tip].h.height)
      case Lost(_) => []
      case Held(anchor) =>
        var at := Some(CursorOf(t, Resume(t, anchor, v.at)));
        if v.at == at then [] else [Validation(at, None, false)]
  }

  lemma {:induction false} ResumeAgain(t: seq<Row>, anchor: nat, c: nat)
    requires Sound(Heads(t)) && anchor < |t| && c < |t| && t[anchor].active && t[c].active
    requires c == anchor || t[anchor].h.height < t[c].h.height
    ensures Resume(t, anchor, Some(CursorOf(t, c))) == c
  {
    FindIs(Heads(t), c, t[c].h.hash);
    hide Sound, Heads, ForkPoint;
  }

  lemma {:induction false} SameStep(p: Params, t: seq<Row>, v: Validation, w: Validation, budget: nat, tip: nat, anchor: nat)
    requires Sound(Heads(t)) && !v.complete && v.fault.None? && !w.complete && w.fault.None? && ChainTip(t) == Some(tip)
    requires FindAnchor(t, p.checkpoints, t[tip].h.height) == Held(anchor)
    requires Resume(t, anchor, v.at) == Resume(t, anchor, w.at)
    ensures Step(p, t, v, budget) == Step(p, t, w, budget)
  {
    hide Sound, Heads, ChainTip, FindAnchor, Resume, Chunk, WindowBelow;
  }

  /** A step cut off after its first record, made again, ends where the uncut one
      ends, wherever it resumes at the anchor or above it. */
  lemma {:induction false} StepCutOff(p: Params, t: seq<Row>, v: Validation, budget: nat, tip: nat, anchor: nat)
    requires Sound(Heads(t)) && !v.complete && v.fault.None? && ChainTip(t) == Some(tip)
    requires FindAnchor(t, p.checkpoints, t[tip].h.height) == Held(anchor)
    requires Resume(t, anchor, v.at) == anchor || t[anchor].h.height < t[Resume(t, anchor, v.at)].h.height
    ensures var moved := Moved(t, p.checkpoints, v);
            |moved| <= 1 && (moved != [] ==> Step(p, t, moved[0], budget) == Step(p, t, v, budget))
  {
    var cursor := Resume(t, anchor, v.at);
    hide Sound, Heads, ChainTip, FindAnchor, Resume, Step;
    ResumeAgain(t, anchor, cursor);
    SameStep(p, t, v, Validation(Some(CursorOf(t, cursor)), None, false), budget, tip, anchor);
  }

  ghost function Steps(p: Params, t: seq<Row>, v: Validation, budget: nat, n: nat): Validation
    requires Sound(Heads(t))
    decreases n
  {
    if n == 0 then v else Steps(p, t, Step(p, t, v, budget), budget, n - 1)
  }

  // ── The reference: every row over its whole active ancestry ──────────────

  ghost function Walk(p: Params, t: seq<Row>, last: nat, hi: nat): (r: (nat, Option<Stop>))
    requires Sound(Heads(t)) && last < |t|
    ensures r.0 < |t| && (t[last].active ==> t[r.0].active)
    ensures t[last].h.height <= t[r.0].h.height && (t[last].h.height <= hi ==> t[r.0].h.height <= hi)
    ensures r.1.None? && t[last].h.height <= hi ==> t[r.0].h.height == hi
    decreases hi - t[last].h.height
  {
    if hi <= t[last].h.height then (last, None)
    else
      match NextRow(t, last)
      case None => (last, Some(NoLink(t[last].h.height + 1)))
      case Some(r) =>
        var v := Verdict(p, AllLinks(t, last), t[r].h);
        if v.Some? then (last, Some(Broke(t[r].h.height, t[r].h.hash, v.value)))
        else Walk(p, t, r, hi)
  }

  /** The window loaded at height `h` and grown by one row holds what the rule
      reads over height `h + 1`, or everything down to the genesis. */
  ghost predicate SteadyAt(depth: nat -> nat, h: nat) {
    Min(depth(h + 1), h + 2) <= Max(depth(h), 1) + 1
  }

  ghost predicate SteadyDepth(p: Params, lo: nat, hi: nat) {
    forall h: nat {:trigger SteadyAt(p.depth, h)} :: lo <= h && h + 1 < hi ==> SteadyAt(p.depth, h)
  }

  lemma {:induction false} SteadyAbove(p: Params, lo: nat, mid: nat, end: nat, hi: nat)
    requires SteadyDepth(p, lo, hi) && lo <= mid && end <= hi
    ensures SteadyDepth(p, mid, end)
  {
  }

  /** The row above an active row by its hash carries its ancestry on. */
  lemma {:induction false} UnbrokenUp(t: seq<Row>, last: nat, r: nat)
    requires Sound(Heads(t)) && last < |t| && r < |t| && t[last].active && t[r].h.prev == t[last].h.hash
    ensures Unbroken(t, r) == [r] + Unbroken(t, last)
  {
    SoundPair(Heads(t), last, last);
    SoundPair(Heads(t), r, last);
    var q := Parent(Heads(t), r);
    assert Heads(t)[last].hash == Heads(t)[r].prev;
    SoundPair(Heads(t), q.value, last);
  }

  /** The link a window of `e` ancestors holds at a height. */
  lemma {:induction false} RowLinkAt(t: seq<Row>, i: nat, e: nat, height: nat)
    requires Sound(Heads(t)) && i < |t| && 0 < e <= |Unbroken(t, i)| && height <= t[i].h.height
    ensures LinkAt(RowLinks(t, i, e), height) ==
              if t[i].h.height - height < e
              then Some(LinkOf(t[Unbroken(t, i)[t[i].h.height - height]].h)) else None
  {
    var rows := Unbroken(t, i);
    var links := RowLinks(t, i, e);
    assert links[0] == LinkOf(Heads(t)[rows[..e][e - 1]]);
    if t[i].h.height - height < e {
      var k := t[i].h.height - height;
      assert links[e - 1 - k] == LinkOf(Heads(t)[rows[..e][k]]);
    }
  }

  /** A window that holds what the rule may read shows it all. */
  lemma {:induction false} ViewHeld(t: seq<Row>, i: nat, e: nat, depth: nat)
    requires Sound(Heads(t)) && i < |t| && 0 < e <= |Unbroken(t, i)| && (depth <= e || e == |Unbroken(t, i)|)
    ensures View(RowLinks(t, i, e), t[i].h.height, depth)
         == View(AllLinks(t, i), t[i].h.height, depth)
  {
    var n := |Unbroken(t, i)|;
    hide Unbroken, Links, LinkAt, RowLinks;
    forall height: nat | t[i].h.height < height + depth && height <= t[i].h.height
      ensures LinkAt(RowLinks(t, i, e), height) == LinkAt(RowLinks(t, i, n), height)
    {
      RowLinkAt(t, i, e, height);
      RowLinkAt(t, i, n, height);
    }
  }

  lemma {:induction false} PushedRow(t: seq<Row>, last: nat, r: nat, e: nat)
    requires Sound(Heads(t)) && last < |t| && r < |t| && t[last].active && t[r].h.prev == t[last].h.hash
    requires e <= |Unbroken(t, last)|
    ensures e + 1 <= |Unbroken(t, r)| && RowLinks(t, r, e + 1) == RowLinks(t, last, e) + [LinkOf(t[r].h)]
  {
    hide Unbroken, Sound;
    UnbrokenUp(t, last, r);
    assert Unbroken(t, r)[..e + 1] == [r] + Unbroken(t, last)[..e];
  }

  lemma {:induction false} SameVerdict(p: Params, t: seq<Row>, last: nat, e: nat, h: Header)
    requires Sound(Heads(t)) && last < |t| && 0 < e <= |Unbroken(t, last)|
    requires p.depth(t[last].h.height) <= e || e == |Unbroken(t, last)|
    requires h.height == t[last].h.height + 1
    ensures Verdict(p, RowLinks(t, last, e), h) == Verdict(p, AllLinks(t, last), h)
  {
    hide Unbroken, Sound, RowLinks, View, AllLinks;
    ViewHeld(t, last, e, p.depth(t[last].h.height));
  }

  /** The growing window answers every row as its whole ancestry does. */
  lemma {:induction false} ChunkIsWalk(p: Params, t: seq<Row>, last: nat, e: nat, hi: nat)
    requires Sound(Heads(t)) && last < |t| && t[last].active && SteadyDepth(p, t[last].h.height, hi)
    requires 0 < e <= |Unbroken(t, last)|
    requires t[last].h.height < hi ==> p.depth(t[last].h.height) <= e || e == |Unbroken(t, last)|
    ensures Chunk(p, t, RowLinks(t, last, e), last, hi) == Walk(p, t, last, hi)
    decreases hi - t[last].h.height
  {
    hide Unbroken, Sound, RowLinks, Verdict, NextRow, AllLinks;
    if t[last].h.height < hi && NextRow(t, last).Some? {
      var r := NextRow(t, last).value;
      SameVerdict(p, t, last, e, t[r].h);
      if Verdict(p, RowLinks(t, last, e), t[r].h).None? {
        PushedRow(t, last, r, e);
        PushedSize(t, last, r);
        AncestrySize(t, r);
        assert t[r].h.height < hi ==> SteadyAt(p.depth, t[last].h.height);
        ChunkIsWalk(p, t, r, e + 1, hi);
      }
    }
  }

  lemma {:induction false} PushedSize(t: seq<Row>, last: nat, r: nat)
    requires Sound(Heads(t)) && last < |t| && r < |t| && t[last].active && t[r].h.prev == t[last].h.hash
    ensures |Unbroken(t, r)| == |Unbroken(t, last)| + 1
  {
    UnbrokenUp(t, last, r);
  }

  lemma {:induction false} AncestrySize(t: seq<Row>, i: nat)
    requires Sound(Heads(t)) && i < |t|
    ensures |Unbroken(t, i)| <= t[i].h.height + 1
  {
    var rows := Unbroken(t, i);
    assert t[rows[|rows| - 1]].h.height + (|rows| - 1) == t[i].h.height;
  }

  lemma {:induction false} WalkSplit(p: Params, t: seq<Row>, last: nat, mid: nat, hi: nat)
    requires Sound(Heads(t)) && last < |t| && t[last].h.height <= mid <= hi
    ensures var w := Walk(p, t, last, mid);
            Walk(p, t, last, hi) == if w.1.Some? then w else Walk(p, t, w.0, hi)
    decreases hi - t[last].h.height
  {
    hide Unbroken, Sound, Verdict, NextRow, RowLinks;
    if t[last].h.height < mid && NextRow(t, last).Some? {
      var r := NextRow(t, last).value;
      if Verdict(p, AllLinks(t, last), t[r].h).None? {
        WalkSplit(p, t, r, mid, hi);
      }
    }
  }

  // ── Where a pass starts and where it ends ────────────────────────────────

  /** The recorded cursor's height is its row's. */
  ghost predicate Recorded(t: seq<Row>, v: Validation) {
    v.at.Some? ==> forall i :: 0 <= i < |t| && t[i].h.hash == v.at.value.hash ==> t[i].h.height == v.at.value.height
  }

  /** A pass that has rows to check: the tip `tip`, the row `c` it resumes at. */
  ghost predicate Starts(p: Params, t: seq<Row>, v: Validation, tip: nat, anchor: nat, c: nat) {
    && !v.complete && v.fault.None? && Recorded(t, v) && Sound(Heads(t))
    && ChainTip(t) == Some(tip) && tip < |t|
    && FindAnchor(t, p.checkpoints, t[tip].h.height) == Held(anchor) && anchor < |t|
    && c == Resume(t, anchor, v.at) && c < |t|
    && t[c].h.height < t[tip].h.height
  }

  /** The depth is steady from the row a pass resumes at up to the tip. */
  ghost predicate Steady(p: Params, t: seq<Row>, tip: nat, c: nat) {
    tip < |t| && c < |t| && SteadyDepth(p, t[c].h.height, t[tip].h.height)
  }

  ghost function Landing(t: seq<Row>, tip: nat, w: (nat, Option<Stop>)): Validation
    requires tip < |t| && w.0 < |t|
  {
    Validation(Some(CursorOf(t, w.0)), w.1, w.1.None? && t[tip].h.height <= t[w.0].h.height)
  }

  /** The whole pass in one go, every row over its whole ancestry. */
  ghost function Pass(p: Params, t: seq<Row>, tip: nat, c: nat): Validation
    requires Sound(Heads(t)) && tip < |t| && c < |t|
  {
    Landing(t, tip, Walk(p, t, c, t[tip].h.height))
  }

  lemma {:induction false} ResumeAbove(t: seq<Row>, anchor: nat, v: Validation)
    requires anchor < |t| && t[anchor].active && Recorded(t, v)
    ensures t[anchor].h.height <= t[Resume(t, anchor, v.at)].h.height
  {
  }

  /** A recorded active row above the anchor is where the next step resumes. */
  lemma {:induction false} ResumeThere(t: seq<Row>, anchor: nat, r: nat)
    requires Sound(Heads(t)) && anchor < |t| && t[anchor].active && r < |t| && t[r].active
    requires t[anchor].h.height < t[r].h.height
    ensures Resume(t, anchor, Some(CursorOf(t, r))) == r
    ensures Recorded(t, Validation(Some(CursorOf(t, r)), None, false))
  {
    var hs := Heads(t);
    assert hs[r].hash == t[r].h.hash;
    SoundPair(hs, Find(hs, t[r].h.hash).value, r);
    forall i | 0 <= i < |t| && t[i].h.hash == t[r].h.hash ensures t[i].h.height == t[r].h.height {
      SoundPair(hs, i, r);
    }
  }

  /** One step of a pass that has rows to check. */
  lemma {:induction false} StepIsWalk(p: Params, t: seq<Row>, v: Validation, tip: nat, anchor: nat, c: nat, budget: nat)
    requires Starts(p, t, v, tip, anchor, c) && Steady(p, t, tip, c)
    ensures Step(p, t, v, budget) == Landing(t, tip, Walk(p, t, c, Min(t[tip].h.height, t[c].h.height + budget)))
  {
    hide Unbroken, Sound, Chunk, Walk, FindAnchor, Resume, RowLinks, Recorded, SteadyDepth;
    var e := Min(|Unbroken(t, c)|, Max(p.depth(t[c].h.height), 1));
    UnbrokenSome(t, c);
    SteadyAbove(p, t[c].h.height, t[c].h.height, Min(t[tip].h.height, t[c].h.height + budget), t[tip].h.height);
    ChunkIsWalk(p, t, c, e, Min(t[tip].h.height, t[c].h.height + budget));
  }

  lemma {:induction false} UnbrokenSome(t: seq<Row>, c: nat)
    requires Sound(Heads(t)) && c < |t|
    ensures 0 < |Unbroken(t, c)|
  {
  }

  lemma {:induction false} StepsSnoc(p: Params, t: seq<Row>, v: Validation, budget: nat, n: nat)
    requires Sound(Heads(t))
    ensures Steps(p, t, v, budget, n + 1) == Step(p, t, Steps(p, t, v, budget, n), budget)
    decreases n
  {
    hide Step;
    if n > 0 {
      StepsSnoc(p, t, Step(p, t, v, budget), budget, n - 1);
    } else {
      assert Steps(p, t, Step(p, t, v, budget), budget, 0) == Step(p, t, v, budget);
    }
  }

  /** Where a walk of `done` rows lands. */
  ghost function Landed(p: Params, t: seq<Row>, tip: nat, c: nat, done: nat): Validation
    requires Sound(Heads(t)) && tip < |t| && c < |t|
  {
    Landing(t, tip, Walk(p, t, c, Min(t[tip].h.height, t[c].h.height + done)))
  }

  lemma {:induction false} StartsIn(p: Params, t: seq<Row>, v: Validation, tip: nat, anchor: nat, c: nat)
    requires Starts(p, t, v, tip, anchor, c)
    ensures Sound(Heads(t)) && tip < |t| && c < |t| && anchor < |t| && t[c].h.height < t[tip].h.height
  {
  }

  lemma {:induction false} FirstLanding(p: Params, t: seq<Row>, v: Validation, tip: nat, anchor: nat, c: nat, budget: nat)
    requires Starts(p, t, v, tip, anchor, c) && Steady(p, t, tip, c) && Sound(Heads(t)) && tip < |t| && c < |t|
    ensures Step(p, t, v, budget) == Landed(p, t, tip, c, budget)
  {
    hide Walk, Step, Steady, Starts;
    StepIsWalk(p, t, v, tip, anchor, c, budget);
  }

  /** The rows `n` steps of `budget` cover. */
  function Rows(n: nat, budget: nat): nat {
    n * budget
  }

  lemma {:induction false} RowsNext(n: nat, b: nat)
    requires 0 < b
    ensures Rows(1, b) == b
    ensures n <= Rows(n, b)
    ensures 1 < n ==> Rows(n, b) == Rows(n - 1, b) + b && 0 < Rows(n - 1, b)
  {
    if 1 < n { assert n * b == (n - 1) * b + b; }
  }

  /** After `n` steps of `budget` rows the pass stands where one walk of
      `n * budget` rows lands. */
  lemma {:induction false} StepsAreWalk(p: Params, t: seq<Row>, v: Validation, tip: nat, anchor: nat, c: nat, budget: nat, n: nat)
    requires Starts(p, t, v, tip, anchor, c) && Steady(p, t, tip, c) && 0 < budget && 0 < n
    requires Sound(Heads(t)) && tip < |t| && c < |t|
    ensures Steps(p, t, v, budget, n) == Landed(p, t, tip, c, Rows(n, budget))
    decreases n
  {
    StepsNone(p, t, v, budget);
    hide *;
    StepsSnoc(p, t, v, budget, n - 1);
    RowsNext(n, budget);
    if n == 1 {
      FirstLanding(p, t, v, tip, anchor, c, budget);
    } else {
      StepsAreWalk(p, t, v, tip, anchor, c, budget, n - 1);
      OneMore(p, t, v, tip, anchor, c, Rows(n - 1, budget), budget);
    }
  }

  lemma {:induction false} StepsNone(p: Params, t: seq<Row>, v: Validation, budget: nat)
    requires Sound(Heads(t))
    ensures Steps(p, t, v, budget, 0) == v
  {
  }

  /** A step from where a walk of `done` rows landed. */
  lemma {:induction false} OneMore(p: Params, t: seq<Row>, v: Validation, tip: nat, anchor: nat, c: nat, done: nat, budget: nat)
    requires Starts(p, t, v, tip, anchor, c) && Steady(p, t, tip, c) && 0 < done
    requires Sound(Heads(t)) && tip < |t| && c < |t|
    ensures Step(p, t, Landed(p, t, tip, c, done), budget) == Landed(p, t, tip, c, done + budget)
  {
    StartsIn(p, t, v, tip, anchor, c);
    hide *;
    var v1 := Landed(p, t, tip, c, done);
    if v1.complete || v1.fault.Some? {
      StepDone(p, t, v1, budget);
      LandedStays(p, t, tip, c, done, done + budget);
    } else {
      LandedOn(p, t, v, tip, anchor, c, done, budget);
    }
  }

  /** A walk that stopped or reached the tip lands there whatever it is given. */
  lemma {:induction false} LandedStays(p: Params, t: seq<Row>, tip: nat, c: nat, done: nat, more: nat)
    requires Sound(Heads(t)) && tip < |t| && c < |t| && t[c].h.height < t[tip].h.height && done <= more
    requires Landed(p, t, tip, c, done).complete || Landed(p, t, tip, c, done).fault.Some?
    ensures Landed(p, t, tip, c, more) == Landed(p, t, tip, c, done)
  {
    var top := t[tip].h.height;
    var mid := Min(top, t[c].h.height + done);
    hide Walk, Sound;
    WalkSplit(p, t, c, mid, Min(top, t[c].h.height + more));
    WalkNowhere(p, t, Walk(p, t, c, mid).0, Min(top, t[c].h.height + more));
  }

  /** Where an unfinished walk of `done` rows ends the next step starts. */
  lemma {:induction false} NextStarts(p: Params, t: seq<Row>, v: Validation, tip: nat, anchor: nat, c: nat, done: nat)
    requires Starts(p, t, v, tip, anchor, c) && 0 < done && Sound(Heads(t)) && tip < |t| && c < |t|
    requires var v1 := Landed(p, t, tip, c, done); !v1.complete && v1.fault.None?
    ensures var w := Walk(p, t, c, t[c].h.height + done);
            Starts(p, t, Landed(p, t, tip, c, done), tip, anchor, w.0) && t[w.0].h.height == t[c].h.height + done
            && w.1.None? && t[c].h.height + done < t[tip].h.height
  {
    ResumeAbove(t, anchor, v);
    hide Unbroken, Sound, Walk, FindAnchor, Resume;
    var w := Walk(p, t, c, t[c].h.height + done);
    assert t[w.0].h.height == t[c].h.height + done;
    ResumeThere(t, anchor, w.0);
  }

  lemma {:induction false} LandedOn(p: Params, t: seq<Row>, v: Validation, tip: nat, anchor: nat, c: nat, done: nat, budget: nat)
    requires Starts(p, t, v, tip, anchor, c) && Steady(p, t, tip, c) && 0 < done
    requires Sound(Heads(t)) && tip < |t| && c < |t|
    requires var v1 := Landed(p, t, tip, c, done); !v1.complete && v1.fault.None?
    ensures Step(p, t, Landed(p, t, tip, c, done), budget) == Landed(p, t, tip, c, done + budget)
  {
    hide Walk, Sound, Starts, Step, SteadyDepth;
    NextStarts(p, t, v, tip, anchor, c, done);
    var w := Walk(p, t, c, t[c].h.height + done);
    SteadyAbove(p, t[c].h.height, t[w.0].h.height, t[tip].h.height, t[tip].h.height);
    FirstLanding(p, t, Landed(p, t, tip, c, done), tip, anchor, w.0, budget);
    WalkSplit(p, t, c, t[c].h.height + done, Min(t[tip].h.height, t[c].h.height + (done + budget)));
  }

  lemma {:induction false} StepDone(p: Params, t: seq<Row>, v: Validation, budget: nat)
    requires Sound(Heads(t)) && (v.complete || v.fault.Some?)
    ensures Step(p, t, v, budget) == v
  {
  }

  lemma {:induction false} WalkNowhere(p: Params, t: seq<Row>, last: nat, hi: nat)
    requires Sound(Heads(t)) && last < |t|
    ensures hi <= t[last].h.height ==> Walk(p, t, last, hi) == (last, None)
  {
  }

  // ── The claims ───────────────────────────────────────────────────────────

  lemma {:induction false} PassIsLanding(p: Params, t: seq<Row>, tip: nat, c: nat, done: nat)
    requires Sound(Heads(t)) && tip < |t| && c < |t| && t[c].h.height < t[tip].h.height
    ensures t[tip].h.height - t[c].h.height <= done ==> Landed(p, t, tip, c, done) == Pass(p, t, tip, c)
    ensures done < t[tip].h.height - t[c].h.height ==> !Landed(p, t, tip, c, done).complete
  {
    hide Walk, Sound;
  }

  /** Every budget of at least one row ends in the same state: the same verdict,
      fault and validated row, that of one unbounded pass. */
  lemma {:induction false} AnyBudgetSameEnd(p: Params, t: seq<Row>, v: Validation, tip: nat, anchor: nat, c: nat, budget: nat, n: nat)
    requires Starts(p, t, v, tip, anchor, c) && Steady(p, t, tip, c) && 0 < budget
    requires Sound(Heads(t)) && tip < |t| && c < |t| && t[tip].h.height - t[c].h.height <= n
    ensures Steps(p, t, v, budget, n) == Pass(p, t, tip, c)
  {
    StartsIn(p, t, v, tip, anchor, c);
    hide *;
    StepsAreWalk(p, t, v, tip, anchor, c, budget, n);
    PassIsLanding(p, t, tip, c, Rows(n, budget));
    RowsNext(n, budget);
  }

  /** A pass that completes above its start takes ceil((tip - start) / budget)
      steps. */
  lemma {:induction false} StepsToComplete(p: Params, t: seq<Row>, v: Validation, tip: nat, anchor: nat, c: nat, budget: nat, n: nat)
    requires Starts(p, t, v, tip, anchor, c) && Steady(p, t, tip, c) && 0 < budget && 0 < n
    requires Sound(Heads(t)) && tip < |t| && c < |t| && Pass(p, t, tip, c).complete
    ensures Steps(p, t, v, budget, n).complete <==>
              (t[tip].h.height - t[c].h.height + budget - 1) / budget <= n
  {
    StartsIn(p, t, v, tip, anchor, c);
    hide *;
    StepsAreWalk(p, t, v, tip, anchor, c, budget, n);
    PassIsLanding(p, t, tip, c, Rows(n, budget));
    CeilingDivision(t[tip].h.height - t[c].h.height, budget, n);
  }

  lemma {:induction false} CeilingDivision(d: int, b: nat, n: nat)
    requires 0 < b
    ensures (d + b - 1) / b <= n <==> d <= Rows(n, b)
  {
    var q := (d + b - 1) / b;
    assert d + b - 1 == q * b + (d + b - 1) % b;
    if q <= n {
      assert q * b <= n * b;
    } else {
      assert (n + 1) * b <= q * b;
      assert (n + 1) * b == n * b + b;
    }
  }

  /** The active row of the walk at height `h` stands on the row below it, and
      passed every rule over its whole active ancestry. */
  ghost predicate Passed(p: Params, t: seq<Row>, c: nat, h: nat)
    requires Sound(Heads(t)) && c < |t| && 0 < h
  {
    var w := Walk(p, t, c, h - 1);
    w.1.None? && NextRow(t, w.0).Some? && t[NextRow(t, w.0).value].h.height == h
    && Verdict(p, AllLinks(t, w.0), t[NextRow(t, w.0).value].h).None?
  }

  lemma {:induction false} WalkPassed(p: Params, t: seq<Row>, c: nat, hi: nat, h: nat)
    requires Sound(Heads(t)) && c < |t| && t[c].h.height < h <= t[Walk(p, t, c, hi).0].h.height
    requires t[c].h.height <= hi
    ensures Passed(p, t, c, h)
  {
    hide Unbroken, Sound, NextRow, AllLinks;
    var w := Walk(p, t, c, h - 1);
    WalkSplit(p, t, c, h - 1, hi);
    assert w.1.None?;
    assert t[w.0].h.height == h - 1;
    NextAbove(t, w.0);
    assert Walk(p, t, w.0, hi).0 != w.0;
  }

  lemma {:induction false} NextAbove(t: seq<Row>, i: nat)
    requires i < |t|
    ensures NextRow(t, i).Some? ==>
              NextRow(t, i).value < |t| && t[NextRow(t, i).value].h.height == t[i].h.height + 1
  {
  }

  lemma {:induction false} MinAbove(a: nat, b: nat, n: nat)
    requires b < a
    ensures b <= Min(a, b + n)
  {
  }

  /** The heights a landing admits lie on the walk. */
  lemma {:induction false} LandingAdmits(p: Params, t: seq<Row>, tip: nat, c: nat, done: nat, h: nat)
    requires Sound(Heads(t)) && tip < |t| && c < |t| && t[c].h.height < t[tip].h.height
    requires h <= t[tip].h.height && ServedCeiling(Landed(p, t, tip, c, done)).Admits(h)
    ensures h <= t[Walk(p, t, c, Min(t[tip].h.height, t[c].h.height + done)).0].h.height
  {
    hide Walk, Sound;
  }

  /** At every step of every budget each height the ceiling admits above the
      start holds a row that passed. */
  lemma {:induction false} AdmittedRowsPassed(p: Params, t: seq<Row>, v: Validation, tip: nat, anchor: nat, c: nat,
                                              budget: nat, n: nat, h: nat)
    requires Starts(p, t, v, tip, anchor, c) && Steady(p, t, tip, c) && 0 < budget && 0 < n
    requires Sound(Heads(t)) && tip < |t| && c < |t| && t[c].h.height < h <= t[tip].h.height
    requires ServedCeiling(Steps(p, t, v, budget, n)).Admits(h)
    ensures Passed(p, t, c, h)
  {
    StartsIn(p, t, v, tip, anchor, c);
    hide *;
    StepsAreWalk(p, t, v, tip, anchor, c, budget, n);
    LandingAdmits(p, t, tip, c, Rows(n, budget), h);
    MinAbove(t[tip].h.height, t[c].h.height, Rows(n, budget));
    WalkPassed(p, t, c, Min(t[tip].h.height, t[c].h.height + Rows(n, budget)), h);
  }

  /** The ceiling never rises past the last row before the refused one. */
  lemma {:induction false} CeilingStopsAtTheFault(p: Params, t: seq<Row>, v: Validation, tip: nat, anchor: nat, c: nat,
                                                  budget: nat, n: nat, h: nat)
    requires Starts(p, t, v, tip, anchor, c) && Steady(p, t, tip, c) && 0 < budget && 0 < n
    requires Sound(Heads(t)) && tip < |t| && c < |t| && Pass(p, t, tip, c).fault.Some?
    requires ServedCeiling(Steps(p, t, v, budget, n)).Admits(h)
    ensures h <= Pass(p, t, tip, c).at.value.height
  {
    StartsIn(p, t, v, tip, anchor, c);
    hide *;
    StepsAreWalk(p, t, v, tip, anchor, c, budget, n);
    LandingBelowFault(p, t, tip, c, Rows(n, budget), h);
  }

  lemma {:induction false} LandingBelowFault(p: Params, t: seq<Row>, tip: nat, c: nat, done: nat, h: nat)
    requires Sound(Heads(t)) && tip < |t| && c < |t| && t[c].h.height < t[tip].h.height
    requires Pass(p, t, tip, c).fault.Some? && ServedCeiling(Landed(p, t, tip, c, done)).Admits(h)
    ensures h <= Pass(p, t, tip, c).at.value.height
  {
    var top := t[tip].h.height;
    var hi := Min(top, t[c].h.height + done);
    hide Walk, Sound;
    WalkSplit(p, t, c, hi, top);
    WalkNowhere(p, t, Walk(p, t, c, hi).0, top);
  }

  // ── Where the depth is not steady ────────────────────────────────────────

  /** A chain of `n` rows from the genesis up, its last row the tip. */
  function Member(n: nat, i: nat): Row {
    Row(Header(i + 1, i, i, 0, 0), None, true, i + 1 == n, i + 1)
  }

  function ChainOf(n: nat): (t: seq<Row>)
    ensures |t| == n && forall i :: 0 <= i < n ==> t[i] == Member(n, i)
  {
    seq(n, i requires 0 <= i < n => Member(n, i))
  }

  /** A rule that reads the link at `k` over height `top` and no other link;
      the row at height `held` is a checkpoint. */
  function Boundary(depth: nat -> nat, top: nat, k: nat, held: nat): Params {
    Params((h: Header) => true, (bits: nat) => 1,
           (view: map<nat, Link>, prev: nat, time: nat) => if prev == top && k !in view then Missing(k) else Bits(0),
           depth, 1, [(held, held + 1)])
  }

  lemma {:induction false} ChainIsSound(n: nat, m: nat)
    requires m <= n
    ensures Sound(Heads(ChainOf(n)[..m]))
    decreases m
  {
    if m > 0 {
      ChainIsSound(n, m - 1);
      var hs := Heads(ChainOf(n)[..m - 1]);
      assert Heads(ChainOf(n)[..m]) == hs + [Member(n, m - 1).h];
      SoundAppend(hs, Member(n, m - 1).h);
    } else {
      assert Heads(ChainOf(n)[..0]) == [];
    }
  }

  lemma {:induction false} ChainSound(n: nat)
    ensures Sound(Heads(ChainOf(n)))
  {
    ChainIsSound(n, n);
    assert ChainOf(n)[..n] == ChainOf(n);
  }

  lemma {:induction false} ChainNext(n: nat, i: nat)
    requires i + 1 < n
    ensures NextRow(ChainOf(n), i) == Some(i + 1)
  {
    hide NextFrom;
    assert ActiveAt(ChainOf(n), i + 1, ChainOf(n)[i].h.height + 1);
  }

  lemma {:induction false} ChainAncestry(n: nat, i: nat)
    requires Sound(Heads(ChainOf(n))) && i < n
    ensures |Unbroken(ChainOf(n), i)| == i + 1
  {
    if i > 0 {
      ChainAncestry(n, i - 1);
      hide Unbroken, Sound;
      PushedSize(ChainOf(n), i - 1, i);
    } else {
      AncestrySize(ChainOf(n), 0);
    }
  }

  lemma {:induction false} ChainAnchor(depth: nat -> nat, n: nat, k: nat, c: nat)
    requires c + 2 < n
    ensures ChainTip(ChainOf(n)) == Some(n - 1)
    ensures FindAnchor(ChainOf(n), Boundary(depth, c + 1, k, c).checkpoints, n - 1) == Held(c)
  {
    hide ActiveHeader;
    assert ActiveAt(ChainOf(n), c, c);
    assert ActiveHeader(ChainOf(n), c) == Some(c);
    assert ChainOf(n)[n - 1].tip;
  }

  /** The verdict of the row above row `i` over its first `e` ancestors. */
  lemma {:induction false} ChainVerdict(depth: nat -> nat, n: nat, k: nat, c: nat, i: nat, e: nat)
    requires Sound(Heads(ChainOf(n))) && c <= i && i + 1 < n && 0 < e <= |Unbroken(ChainOf(n), i)| && k <= i
    ensures Verdict(Boundary(depth, c + 1, k, c), RowLinks(ChainOf(n), i, e), ChainOf(n)[i + 1].h) ==
            if i == c + 1 && !(i - k < e && i < k + depth(i)) then Some(AncestryMissing(k)) else None
  {
    hide Sound, Unbroken, RowLinks, LinkAt;
    RowLinkAt(ChainOf(n), i, e, k);
  }

  /** The chain over a height `c` whose depth is not steady, and the link its
      window lacks. */
  ghost predicate Jumps(depth: nat -> nat, c: nat, k: nat) {
    && !SteadyAt(depth, c)
    && k == c - Max(depth(c), 1)
  }

  lemma {:induction false} StepFrom(p: Params, t: seq<Row>, v: Validation, tip: nat, anchor: nat, c: nat, budget: nat)
    requires Starts(p, t, v, tip, anchor, c) && Sound(Heads(t)) && tip < |t| && c < |t|
    ensures Step(p, t, v, budget) ==
            Landing(t, tip, Chunk(p, t, WindowBelow(t, c, Max(p.depth(t[c].h.height), 1)), c,
                                  Min(t[tip].h.height, t[c].h.height + budget)))
  {
    hide Sound, Chunk, FindAnchor, Resume, ChainTip, RowLinks, Recorded, WindowBelow;
  }

  lemma {:induction false} OnePasses(p: Params, t: seq<Row>, links: seq<Link>, last: nat, r: nat)
    requires last < |t| && r < |t| && NextRow(t, last) == Some(r)
    requires Verdict(p, links, t[r].h).None?
    ensures Chunk(p, t, links, last, t[r].h.height) == (r, None)
  {
    hide NextRow, Verdict;
    assert Chunk(p, t, links + [LinkOf(t[r].h)], r, t[r].h.height) == (r, None);
  }

  lemma {:induction false} OneIsRefused(p: Params, t: seq<Row>, links: seq<Link>, last: nat, r: nat, fault: Fault)
    requires last < |t| && r < |t| && NextRow(t, last) == Some(r)
    requires Verdict(p, links, t[r].h) == Some(fault)
    ensures Chunk(p, t, links, last, t[r].h.height) == (last, Some(Broke(t[r].h.height, t[r].h.hash, fault)))
  {
    hide NextRow, Verdict;
  }

  lemma {:induction false} PassesThen(p: Params, t: seq<Row>, links: seq<Link>, last: nat, r: nat, hi: nat)
    requires last < |t| && r < |t| && NextRow(t, last) == Some(r) && t[r].h.height <= hi
    requires Verdict(p, links, t[r].h).None?
    ensures Chunk(p, t, links, last, hi) == Chunk(p, t, links + [LinkOf(t[r].h)], r, hi)
  {
    hide NextRow, Verdict;
  }

  lemma {:induction false} ChainRows(c: nat)
    ensures var t := ChainOf(c + 3);
            && t[c].h.height == c && t[c + 1].h.height == c + 1 && t[c + 2].h.height == c + 2
            && t[c + 2].h.hash == c + 3 && t[c].active && t[c + 1].h.prev == t[c].h.hash
  {
  }

  lemma {:induction false} ChainWindow(n: nat, i: nat, depth: nat, e: nat)
    requires Sound(Heads(ChainOf(n))) && i < n && e == Min(i + 1, depth)
    ensures e <= |Unbroken(ChainOf(n), i)|
    ensures WindowBelow(ChainOf(n), i, depth) == RowLinks(ChainOf(n), i, e)
  {
    ChainAncestry(n, i);
    hide Sound, Unbroken;
  }

  /** The window at a jump `e`, and the one loaded a row later `f`. */
  lemma {:induction false} JumpSizes(depth: nat -> nat, c: nat, k: nat, e: nat, f: nat)
    requires Jumps(depth, c, k) && e == Max(depth(c), 1) && f == Max(depth(c + 1), 1)
    ensures 0 < e <= c && k == c - e && e + 1 < f == depth(c + 1)
    ensures e == Min(c + 1, e) && e + 1 < Min(c + 2, f) <= c + 2
  {
  }

  lemma {:induction false} ChainLong(c: nat, e: nat)
    requires Sound(Heads(ChainOf(c + 3))) && e <= c + 1
    ensures e <= |Unbroken(ChainOf(c + 3), c)| && e <= |Unbroken(ChainOf(c + 3), c + 1)|
    ensures e + 1 <= |Unbroken(ChainOf(c + 3), c + 1)|
  {
    ChainAncestry(c + 3, c);
    ChainAncestry(c + 3, c + 1);
  }

  /** From row `c`: one row passes, and the next is refused over the window
      loaded there. */
  lemma {:induction false} ChunkAtTheJump(depth: nat -> nat, c: nat, k: nat, e: nat)
    requires Sound(Heads(ChainOf(c + 3))) && 0 < e <= c && k == c - e && e == Min(c + 1, e)
    ensures var t, p := ChainOf(c + 3), Boundary(depth, c + 1, k, c);
            && Chunk(p, t, WindowBelow(t, c, e), c, c + 1) == (c + 1, None)
            && Chunk(p, t, WindowBelow(t, c, e), c, c + 2) == (c + 1, Some(Broke(c + 2, c + 3, AncestryMissing(k))))
  {
    var t, p := ChainOf(c + 3), Boundary(depth, c + 1, k, c);
    hide *;
    ChainRows(c);
    ChainLong(c, e);
    ChainVerdict(depth, c + 3, k, c, c, e);
    ChainVerdict(depth, c + 3, k, c, c + 1, e + 1);
    ChainWindow(c + 3, c, e, e);
    PushedRow(t, c, c + 1, e);
    ChainNext(c + 3, c);
    ChainNext(c + 3, c + 1);
    OnePasses(p, t, RowLinks(t, c, e), c, c + 1);
    PassesThen(p, t, RowLinks(t, c, e), c, c + 1, c + 2);
    OneIsRefused(p, t, RowLinks(t, c + 1, e + 1), c + 1, c + 2, AncestryMissing(k));
  }

  lemma {:induction false} PastVerdict(depth: nat -> nat, c: nat, k: nat, e: nat, g: nat)
    requires Sound(Heads(ChainOf(c + 3))) && 0 < e <= c && k == c - e && e + 1 < g <= c + 2 && e + 1 < depth(c + 1)
    requires g <= |Unbroken(ChainOf(c + 3), c + 1)|
    ensures Verdict(Boundary(depth, c + 1, k, c), RowLinks(ChainOf(c + 3), c + 1, g), ChainOf(c + 3)[c + 2].h).None?
  {
    hide *;
    ChainVerdict(depth, c + 3, k, c, c + 1, g);
  }

  /** From row `c + 1` the last row passes. */
  lemma {:induction false} ChunkPastTheJump(depth: nat -> nat, c: nat, k: nat, e: nat, f: nat, g: nat)
    requires Sound(Heads(ChainOf(c + 3))) && 0 < e <= c && k == c - e && f == depth(c + 1)
    requires g == Min(c + 2, f) && e + 1 < g <= c + 2 && e + 1 < f
    ensures var t, p := ChainOf(c + 3), Boundary(depth, c + 1, k, c);
            Chunk(p, t, WindowBelow(t, c + 1, f), c + 1, c + 2) == (c + 2, None)
  {
    var t, p := ChainOf(c + 3), Boundary(depth, c + 1, k, c);
    hide *;
    ChainWindow(c + 3, c + 1, f, g);
    PastVerdict(depth, c, k, e, g);
    ChainNext(c + 3, c + 1);
    OnePasses(p, t, RowLinks(t, c + 1, g), c + 1, c + 2);
    ChainRows(c);
  }

  lemma {:induction false} JumpStarts(depth: nat -> nat, c: nat, k: nat)
    requires Sound(Heads(ChainOf(c + 3)))
    ensures var t, p := ChainOf(c + 3), Boundary(depth, c + 1, k, c);
            && Starts(p, t, UNVALIDATED, c + 2, c, c)
            && Starts(p, t, Validation(Some(CursorOf(t, c + 1)), None, false), c + 2, c, c + 1)
  {
    ChainAnchor(depth, c + 3, k, c);
    ResumeThere(ChainOf(c + 3), c, c + 1);
    hide Sound, ChainTip, FindAnchor, Find;
  }

  lemma {:induction false} TwoAtOnce(depth: nat -> nat, c: nat, k: nat)
    requires Jumps(depth, c, k) && Sound(Heads(ChainOf(c + 3)))
    ensures Step(Boundary(depth, c + 1, k, c), ChainOf(c + 3), UNVALIDATED, 2).fault ==
            Some(Broke(c + 2, c + 3, AncestryMissing(k)))
  {
    JumpStarts(depth, c, k);
    JumpSizes(depth, c, k, Max(depth(c), 1), Max(depth(c + 1), 1));
    ChunkAtTheJump(depth, c, k, Max(depth(c), 1));
    StepFrom(Boundary(depth, c + 1, k, c), ChainOf(c + 3), UNVALIDATED, c + 2, c, c, 2);
    hide Sound, Step, Chunk, Starts, WindowBelow, Jumps;
  }

  lemma {:induction false} OneByOne(depth: nat -> nat, c: nat, k: nat)
    requires Jumps(depth, c, k) && Sound(Heads(ChainOf(c + 3)))
    ensures var t, p := ChainOf(c + 3), Boundary(depth, c + 1, k, c);
            Step(p, t, Step(p, t, UNVALIDATED, 1), 1).complete
  {
    var t, p := ChainOf(c + 3), Boundary(depth, c + 1, k, c);
    JumpStarts(depth, c, k);
    JumpSizes(depth, c, k, Max(depth(c), 1), Max(depth(c + 1), 1));
    ChunkAtTheJump(depth, c, k, Max(depth(c), 1));
    ChunkPastTheJump(depth, c, k, Max(depth(c), 1), Max(depth(c + 1), 1), Min(c + 2, Max(depth(c + 1), 1)));
    StepFrom(p, t, UNVALIDATED, c + 2, c, c, 1);
    StepFrom(p, t, Validation(Some(CursorOf(t, c + 1)), None, false), c + 2, c, c + 1, 1);
    hide Sound, Step, Chunk, Starts, WindowBelow, Jumps;
  }

  lemma {:induction false} TwoSteps(p: Params, t: seq<Row>, v: Validation, budget: nat)
    requires Sound(Heads(t))
    ensures Steps(p, t, v, budget, 2) == Step(p, t, Step(p, t, v, budget), budget)
  {
    hide Step;
    StepsSnoc(p, t, v, budget, 1);
    StepsSnoc(p, t, v, budget, 0);
    StepsNone(p, t, v, budget);
  }

  /** Where the depth jumps the budget decides: steps of two rows refuse a chain
      that steps of one row pass. */
  lemma {:induction false} BudgetDecides(depth: nat -> nat, c: nat, k: nat)
    requires Jumps(depth, c, k) && Sound(Heads(ChainOf(c + 3)))
    ensures var t, p := ChainOf(c + 3), Boundary(depth, c + 1, k, c);
            && Steps(p, t, UNVALIDATED, 1, 2).complete
            && Steps(p, t, UNVALIDATED, 2, 2).fault == Some(Broke(c + 2, c + 3, AncestryMissing(k)))
  {
    var t, p := ChainOf(c + 3), Boundary(depth, c + 1, k, c);
    TwoAtOnce(depth, c, k);
    OneByOne(depth, c, k);
    hide Sound, Step, Jumps;
    TwoSteps(p, t, UNVALIDATED, 1);
    TwoSteps(p, t, UNVALIDATED, 2);
    StepDone(p, t, Step(p, t, UNVALIDATED, 2), 2);
  }

  /** Whatever the chain, the rule and the start, the budget does not decide
      where a pass ends. */
  ghost predicate BudgetFree(depth: nat -> nat) {
    forall p: Params, t: seq<Row>, v: Validation, tip: nat, anchor: nat, c: nat, budget: nat, n: nat
      {:trigger Starts(p, t, v, tip, anchor, c), Steps(p, t, v, budget, n)} ::
      p.depth == depth && Starts(p, t, v, tip, anchor, c) && 0 < budget && t[tip].h.height - t[c].h.height <= n
      ==> Steps(p, t, v, budget, n) == Steps(p, t, v, 1, n)
  }

  /** The re-validation is free of its budget exactly for the depths that grow
      by at most one a height: the depth is read at the cursor only
      (src/storage.rs:2240), so the legacy retarget's jump is not. */
  lemma {:induction false} BudgetFreeIsSteady(depth: nat -> nat)
    ensures BudgetFree(depth) <==> forall h: nat :: SteadyAt(depth, h)
  {
    if forall h: nat :: SteadyAt(depth, h) {
      SteadyIsFree(depth);
    } else {
      var h: nat :| !SteadyAt(depth, h);
      JumpIsNotFree(depth, h);
    }
  }

  lemma {:induction false} SteadyIsFree(depth: nat -> nat)
    requires forall h: nat :: SteadyAt(depth, h)
    ensures BudgetFree(depth)
  {
    hide SteadyAt, Steps, Sound, Resume, FindAnchor, ChainTip, Recorded;
    forall p: Params, t: seq<Row>, v: Validation, tip: nat, anchor: nat, c: nat, budget: nat, n: nat
      | p.depth == depth && Starts(p, t, v, tip, anchor, c) && 0 < budget && t[tip].h.height - t[c].h.height <= n
      ensures Steps(p, t, v, budget, n) == Steps(p, t, v, 1, n)
    {
      AnyBudgetSameEnd(p, t, v, tip, anchor, c, budget, n);
      AnyBudgetSameEnd(p, t, v, tip, anchor, c, 1, n);
    }
  }

  lemma {:induction false} JumpIsNotFree(depth: nat -> nat, c: nat)
    requires !SteadyAt(depth, c)
    ensures !BudgetFree(depth)
  {
    var k: nat := c - Max(depth(c), 1);
    ChainSound(c + 3);
    JumpStarts(depth, c, k);
    BudgetDecides(depth, c, k);
    hide Sound, Steps, Starts;
  }
}
