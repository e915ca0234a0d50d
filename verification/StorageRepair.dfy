/** The sweep and the re-validation over the header store, as the loops that run
    them (src/storage.rs:1617-1640, 2161-2300). */
module StorageRepair {
  import opened Wrappers
  import opened Headers
  import opened HeaderTable
  import opened Live
  import opened Revalidate
  import opened Storage
  import opened CleanStore
  import S = Sweep

  // ── The sweep ────────────────────────────────────────────────────────────

  method IsDual(t: seq<Row>, height: nat) returns (dual: bool)
    ensures dual <==> S.Dual(t, height)
  {
    var first: Option<nat> := None;
    var i := 0;
    while i < |t|
      invariant 0 <= i <= |t|
      invariant first.None? ==> forall k: nat :: k < i ==> !ActiveAt(t, k, height)
      invariant first.Some? ==> first.value < i && ActiveAt(t, first.value, height)
                                && forall k: nat :: k < i && ActiveAt(t, k, height) ==> k == first.value
    {
      if ActiveAt(t, i, height) {
        if first.Some? {
          assert ActiveAt(t, first.value, height) && ActiveAt(t, i, height);
          return true;
        }
        first := Some(i);
      }
      i := i + 1;
    }
    assert forall k: nat :: ActiveAt(t, k, height) ==> k < |t|;
    dual := false;
  }

  /** `SQL_DUAL_ACTIVE_HEIGHTS`, highest first. */
  method DualHeights(t: seq<Row>) returns (heights: seq<nat>)
    ensures heights == S.Duals(t)
  {
    hide S.Dual;
    heights := [];
    var n: nat := S.HeightBound(t);
    while 0 < n
      invariant heights + S.DualsBelow(t, n) == S.Duals(t)
    {
      n := n - 1;
      var dual := IsDual(t, n);
      S.DualsStep(t, n + 1);
      if dual {
        assert heights + ([n] + S.DualsBelow(t, n)) == (heights + [n]) + S.DualsBelow(t, n);
        heights := heights + [n];
      }
    }
    assert heights + [] == heights;
  }

  /** `dedupe_active_heights` (src/storage.rs:1617-1640): one statement a height,
      the next height settled first. */
  method DedupeActiveHeights(store: HeaderStore)
    modifies store
    ensures store.Contents() == old(S.Sweep(store.Contents())) && store.validation == old(store.validation)
  {
    hide Run, S.Duals;
    var all := DualHeights(store.rows);
    var heights := all[..Min(|all|, S.HEIGHTS_PER_SWEEP)];
    var i := 0;
    while i < |heights|
      invariant 0 <= i <= |heights| && store.validation == old(store.validation)
      invariant Run(old(store.Contents()), S.Dedupes(heights)) == Run(store.Contents(), S.Dedupes(heights[i..]))
    {
      DedupesNext(store.Contents(), heights, i);
      store.Batch([DedupeHeight(heights[i])]);
      i := i + 1;
    }
    DedupesDone(store.Contents(), heights);
  }

  lemma {:induction false} DedupesNext(db: Db, heights: seq<nat>, i: nat)
    requires i < |heights|
    ensures Run(db, S.Dedupes(heights[i..])) == Run(Run(db, [DedupeHeight(heights[i])]), S.Dedupes(heights[i + 1..]))
  {
    S.DedupesCons(db, heights[i], heights[i + 1..]);
    RunOne(db, DedupeHeight(heights[i]));
    hide Run;
    assert heights[i..] == [heights[i]] + heights[i + 1..];
  }

  lemma {:induction false} DedupesDone(db: Db, heights: seq<nat>)
    ensures Run(db, S.Dedupes(heights[|heights|..])) == db
  {
    assert S.Dedupes(heights[|heights|..]) == [];
  }

  // ── The re-validation ────────────────────────────────────────────────────

  datatype Revalidation = Complete | Advanced(height: nat) | Faulted(stop: Stop)

  function Answer(v: Validation): Revalidation {
    if v.fault.Some? then Faulted(v.fault.value)
    else if v.complete || v.at.None? then Complete else Advanced(v.at.value.height)
  }

  method AnchorOf(t: seq<Row>, list: seq<(nat, Hash)>, tip: nat) returns (r: Anchor)
    ensures r == FindAnchor(t, list, tip)
  {
    hide ActiveHeader;
    var i := |list|;
    assert list[..|list|] == list;
    while 0 < i
      invariant 0 <= i <= |list|
      invariant FindAnchor(t, list, tip) == FindAnchor(t, list[..i], tip)
    {
      i := i - 1;
      var (height, hash) := list[i];
      assert list[..i + 1][..i] == list[..i];
      if height <= tip {
        var row := ActiveHeader(t, height);
        if row.Some? {
          if t[row.value].h.hash != hash { return Lost(Mismatch(height)); }
          return Held(row.value);
        }
      }
    }
    r := Lost(NoCheckpointHeld);
  }

  /** At most 400 parents back (src/storage.rs:2211-2224). */
  method ForkPointOf(store: HeaderStore, i: nat, floor: nat) returns (r: Option<nat>)
    requires store.Sane() && i < |store.rows|
    ensures r == ForkPoint(store.rows, i, floor, 400)
  {
    var row: nat, steps: nat := i, 400;
    while 0 < steps
      invariant row < |store.rows| && 0 <= steps <= 400
      invariant ForkPoint(store.rows, i, floor, 400) == ForkPoint(store.rows, row, floor, steps)
    {
      steps := steps - 1;
      var parent := store.WalkBack(row);
      if parent.None? || store.rows[parent.value].h.height < floor { return None; }
      if store.rows[parent.value].active { return parent; }
      row := parent.value;
    }
    r := None;
  }

  method ResumeAt(store: HeaderStore, anchor: nat, at: Option<Cursor>) returns (r: nat)
    requires store.Sane() && anchor < |store.rows| && store.rows[anchor].active
    ensures r == Resume(store.rows, anchor, at)
  {
    r := anchor;
    if at.Some? && at.value.height > store.rows[anchor].h.height {
      var i := Find(Heads(store.rows), at.value.hash);
      if i.Some? {
        if store.rows[i.value].active { return i.value; }
        var fork := ForkPointOf(store, i.value, store.rows[anchor].h.height);
        if fork.Some? { return fork.value; }
      }
    }
  }

  lemma {:induction false} UnbrokenTail(t: seq<Row>, c: nat, k: nat)
    requires Sound(Heads(t)) && c < |t| && k < |Unbroken(t, c)|
    ensures Unbroken(t, c)[k] < |t| && Unbroken(t, Unbroken(t, c)[k]) == Unbroken(t, c)[k..]
    decreases k
  {
    if 0 < k {
      var q := Parent(Heads(t), c).value;
      UnbrokenTail(t, q, k - 1);
      assert Unbroken(t, c)[k..] == Unbroken(t, q)[k - 1..];
    }
  }

  lemma {:induction false} UnbrokenNext(t: seq<Row>, c: nat, k: nat)
    requires Sound(Heads(t)) && c < |t| && k < |Unbroken(t, c)|
    ensures Unbroken(t, c)[k] < |t|
    ensures var cur := Unbroken(t, c)[k];
            && (k + 1 < |Unbroken(t, c)| <==> 0 < t[cur].h.height && ActiveParentOf(t, cur).Some?)
            && (k + 1 < |Unbroken(t, c)| ==> ActiveParentOf(t, cur) == Some(Unbroken(t, c)[k + 1]))
  {
    UnbrokenTail(t, c, k);
    var cur := Unbroken(t, c)[k];
    if Parent(Heads(t), cur).Some? { SoundPair(Heads(t), cur, Parent(Heads(t), cur).value); }
    if k + 1 < |Unbroken(t, c)| { assert Unbroken(t, c)[k..][1] == Unbroken(t, c)[k + 1]; }
  }

  /** The window that ends at the cursor (src/storage.rs:2239-2266). */
  method WindowUnder(store: HeaderStore, c: nat, depth: nat) returns (links: seq<Link>)
    requires store.Sane() && c < |store.rows| && 0 < depth
    ensures links == WindowBelow(store.rows, c, depth)
  {
    hide Sound, LinksTrue, Unbroken;
    var chain: seq<nat>, cur: nat := [c], c;
    UnbrokenFirst(store.rows, c);
    while |chain| < depth && 0 < store.rows[cur].h.height
      invariant cur < |store.rows| && 0 < |chain| <= Min(depth, |Unbroken(store.rows, c)|)
      invariant chain == Unbroken(store.rows, c)[..|chain|] && cur == chain[|chain| - 1]
      decreases depth - |chain|
    {
      UnbrokenNext(store.rows, c, |chain| - 1);
      var parent := store.ActiveParent(cur);
      if parent.None? { break; }
      chain, cur := chain + [parent.value], parent.value;
    }
    UnbrokenNext(store.rows, c, |chain| - 1);
    links := Links(Heads(store.rows), chain);
  }

  lemma {:induction false} UnbrokenFirst(t: seq<Row>, c: nat)
    requires Sound(Heads(t)) && c < |t|
    ensures 0 < |Unbroken(t, c)| && Unbroken(t, c)[..1] == [c]
  {
  }

  /** The rows above the cursor, one height after another
      (src/storage.rs:2268-2292). */
  method CheckRows(store: HeaderStore, p: Params, below: seq<Link>, cursor: nat, hi: nat) returns (last: nat, stop: Option<Stop>)
    requires cursor < |store.rows|
    ensures (last, stop) == Chunk(p, store.rows, below, cursor, hi)
  {
    hide Verdict, NextRow;
    var window := below;
    last := cursor;
    while store.rows[last].h.height < hi
      invariant last < |store.rows|
      invariant Chunk(p, store.rows, below, cursor, hi) == Chunk(p, store.rows, window, last, hi)
      decreases hi - store.rows[last].h.height
    {
      var next := NextRow(store.rows, last);
      if next.None? { return last, Some(NoLink(store.rows[last].h.height + 1)); }
      var row := store.rows[next.value].h;
      var verdict := Verdict(p, window, row);
      if verdict.Some? { return last, Some(Broke(row.height, row.hash, verdict.value)); }
      window := window + [LinkOf(row)];
      last := next.value;
    }
    stop := None;
  }

  /** `revalidate_step` (src/storage.rs:2161-2300), `written` the records it
      writes. */
  method RevalidateStep(store: HeaderStore, p: Params, budget: nat) returns (r: Revalidation, ghost written: seq<Validation>)
    requires store.Sane()
    modifies store`validation
    ensures store.validation == Step(p, store.rows, old(store.validation), budget)
    ensures written == Records(p, store.rows, old(store.validation), budget)
    ensures r == Answer(store.validation)
  {
    hide Sound, LinksTrue, FindAnchor, Resume, Chunk, WindowBelow, ChainTip;
    written := [];
    if store.validation.complete || store.validation.fault.Some? { return Answer(store.validation), written; }
    var tip := ChainTip(store.rows);
    if tip.None? {
      store.validation := Validation(None, None, true);
      return Complete, [store.validation];
    }
    var top := store.rows[tip.value].h.height;
    var anchor := AnchorOf(store.rows, p.checkpoints, top);
    if anchor.Lost? {
      store.validation := Validation(None, Some(anchor.stop), false);
      return Faulted(anchor.stop), [store.validation];
    }
    var cursor := ResumeAt(store, anchor.row, store.validation.at);
    var at := Some(CursorOf(store.rows, cursor));
    if store.validation.at != at {
      store.validation := Validation(at, None, false);
      written := [store.validation];
    }
    if store.rows[cursor].h.height >= top {
      store.validation := Validation(Some(CursorOf(store.rows, tip.value)), None, true);
      return Complete, written + [store.validation];
    }
    var height := store.rows[cursor].h.height;
    var window := WindowUnder(store, cursor, Max(p.depth(height), 1));
    var last, stop := CheckRows(store, p, window, cursor, Min(top, height + budget));
    store.validation := Validation(Some(CursorOf(store.rows, last)), stop, stop.None? && top <= store.rows[last].h.height);
    written := written + [store.validation];
    r := Answer(store.validation);
  }
}
