/** The window a run is judged over: loaded once at a computed depth and grown
    by push, it answers every header as the whole stored ancestry would
    (src/storage.rs:1083-1096, 1144-1166, 1925-1971). */
module RunWindow {
  import opened Wrappers
  import opened Headers
  import opened HeaderTable
  import opened Ancestor
  import opened CleanStore
  import opened Live
  import opened Bulk

  // ── Runs of consecutive links ────────────────────────────────────────────

  /** A shorter window that still holds `depth` links shows what a longer one
      shows. */
  lemma {:induction false} ViewSuffix(links: seq<Link>, s: nat, prev: nat, depth: nat)
    requires Consecutive(links) && s < |links| && links[|links| - 1].height == prev
    requires s == 0 || depth <= |links| - s
    ensures View(links[s..], prev, depth) == View(links, prev, depth)
  {
    assert links[s..][0] == links[s];
    forall height: nat | prev < height + depth && height <= prev
      ensures LinkAt(links[s..], height) == LinkAt(links, height)
    {
      SuffixLinkAt(links, s, prev, depth, height);
    }
  }

  lemma {:induction false} SuffixLinkAt(links: seq<Link>, s: nat, prev: nat, depth: nat, height: nat)
    requires Consecutive(links) && s < |links| && links[|links| - 1].height == prev
    requires s == 0 || depth <= |links| - s
    requires prev < height + depth && height <= prev
    ensures LinkAt(links[s..], height) == LinkAt(links, height)
  {
    assert links[|links| - 1].height == links[0].height + |links| - 1;
    assert links[s].height == links[0].height + s;
  }

  // ── The stored ancestry a window may reach ───────────────────────────────

  /** All the rows `load_window` could collect: the stored and linked ancestry. */
  ghost function Ancestry(t: seq<Row>, i: nat): (r: seq<nat>)
    requires Sound(Heads(t)) && i < |t|
    ensures |r| > 0 && r[0] == i
    ensures forall k :: 0 <= k < |r| ==> r[k] < |t|
  {
    Reach(t, i, t[i].h.height + 1)
  }

  ghost function AncestryLinks(t: seq<Row>, i: nat): seq<Link>
    requires Sound(Heads(t)) && i < |t|
  {
    Links(Heads(t), Ancestry(t, i))
  }

  /** The rows collected stand one below the other. */
  lemma {:induction false} ReachHeights(t: seq<Row>, i: nat, depth: nat, k: nat)
    requires Sound(Heads(t)) && i < |t| && k < |Reach(t, i, depth)|
    ensures t[Reach(t, i, depth)[k]].h.height + k == t[i].h.height
    decreases k
  {
    if 0 < k {
      var q := Parent(Heads(t), i).value;
      SoundPair(Heads(t), i, q);
      ReachHeights(t, q, depth - 1, k - 1);
    }
  }

  /** A deeper load only adds rows at the far end. */
  lemma {:induction false} ReachCut(t: seq<Row>, i: nat, depth: nat, more: nat)
    requires Sound(Heads(t)) && i < |t| && depth <= more
    ensures |Reach(t, i, depth)| <= |Reach(t, i, more)|
    ensures Reach(t, i, depth) == Reach(t, i, more)[..|Reach(t, i, depth)|]
    ensures |Reach(t, i, depth)| < |Reach(t, i, more)| ==> depth <= |Reach(t, i, depth)|
    decreases depth
  {
    var parent := Parent(Heads(t), i);
    if parent.Some? && 1 < depth && 0 < t[i].h.height && (t[i].active ==> t[parent.value].active) {
      ReachCut(t, parent.value, depth - 1, more - 1);
    }
  }

  /** Past its height no load reaches further. */
  lemma {:induction false} ReachEnds(t: seq<Row>, i: nat, depth: nat)
    requires Sound(Heads(t)) && i < |t| && t[i].h.height < depth
    ensures Reach(t, i, depth) == Ancestry(t, i)
    decreases depth
  {
    var parent := Parent(Heads(t), i);
    if parent.Some? && 1 < depth && 0 < t[i].h.height && (t[i].active ==> t[parent.value].active) {
      SoundPair(Heads(t), i, parent.value);
      ReachEnds(t, parent.value, depth - 1);
    }
  }

  /** The loaded window is the end of the whole ancestry, and shorter only when
      it holds `depth` links. */
  lemma {:induction false} WindowIsSuffix(t: seq<Row>, i: nat, depth: nat) returns (s: nat)
    requires Sound(Heads(t)) && i < |t|
    ensures s < |AncestryLinks(t, i)| && LoadWindow(t, i, depth) == AncestryLinks(t, i)[s..]
    ensures s == 0 || depth <= |LoadWindow(t, i, depth)|
  {
    hide Sound, Reach, Ancestry;
    var all := Ancestry(t, i);
    var got := Reach(t, i, depth);
    AncestryFrom(t, i, depth);
    s := |all| - |got|;
    var links := Links(Heads(t), all);
    forall k | 0 <= k < |got| ensures Links(Heads(t), got)[k] == links[s..][k] {
      assert got[|got| - 1 - k] == all[|got| - 1 - k];
      assert Links(Heads(t), got)[|got| - 1 - (|got| - 1 - k)] == LinkOf(Heads(t)[got[|got| - 1 - k]]);
      assert links[|all| - 1 - (|got| - 1 - k)] == LinkOf(Heads(t)[all[|got| - 1 - k]]);
    }
    assert Links(Heads(t), got) == links[s..];
  }

  lemma {:induction false} AncestryFrom(t: seq<Row>, i: nat, depth: nat)
    requires Sound(Heads(t)) && i < |t|
    ensures var got, all := Reach(t, i, depth), Ancestry(t, i);
            && 0 < |got| <= |all| && got == all[..|got|] && (|got| < |all| ==> depth <= |got|)
  {
    if depth <= t[i].h.height {
      ReachCut(t, i, depth, t[i].h.height + 1);
    } else {
      ReachEnds(t, i, depth);
    }
  }

  lemma {:induction false} AncestryConsecutive(t: seq<Row>, i: nat)
    requires Sound(Heads(t)) && i < |t|
    ensures Consecutive(AncestryLinks(t, i)) && |AncestryLinks(t, i)| > 0
    ensures AncestryLinks(t, i)[|AncestryLinks(t, i)| - 1].height == t[i].h.height
  {
    hide Sound, Reach;
    var rows := Ancestry(t, i);
    var links := AncestryLinks(t, i);
    forall k | 0 <= k < |links| ensures links[k].height + (|links| - 1 - k) == t[i].h.height {
      ReachHeights(t, i, t[i].h.height + 1, |rows| - 1 - k);
      assert links[|rows| - 1 - (|rows| - 1 - k)] == LinkOf(Heads(t)[rows[|rows| - 1 - k]]);
    }
  }

  // ── The run over the grown window ────────────────────────────────────────

  /** What is judged header by header: the run stands on the links it is judged
      over, and these hold the `depth` links each header's rule may read, or all
      there are. */
  ghost predicate Stands(links: seq<Link>, run: seq<Header>) {
    Consecutive(links) && links != []
    && forall j :: 0 <= j < |run| ==> run[j].height == links[|links| - 1].height + 1 + j
  }

  lemma {:induction false} StandsNext(links: seq<Link>, run: seq<Header>)
    requires Stands(links, run) && run != []
    ensures Stands(links + [LinkOf(run[0])], run[1..])
  {
    var more := links + [LinkOf(run[0])];
    assert more[|more| - 1] == LinkOf(run[0]);
    assert forall i :: 0 <= i < |links| ==> more[i] == links[i];
  }

  /** The window cut at `s` answers a run as the whole does, when at every header
      it holds what the rule reads. */
  lemma {:induction false} SameFault(p: Params, all: seq<Link>, s: nat, run: seq<Header>,
                                     below: Option<nat>, vouched: Option<nat>, t: seq<Row>)
    requires Stands(all, run) && s < |all|
    requires s == 0 || forall j :: 0 <= j < |run| ==> p.depth(run[j].height - 1) <= |all| - s + j
    ensures ContextFault(p, all[s..], run, below, vouched, t) == ContextFault(p, all, run, below, vouched, t)
    decreases |run|
  {
    if run != [] {
      SameContext(p, all, s, run[0]);
      StandsNext(all, run);
      hide Consecutive, Stands, CheckContext, ServedAt;
      assert all[s..] + [LinkOf(run[0])] == (all + [LinkOf(run[0])])[s..];
      assert forall j :: 0 <= j < |run| - 1 ==> run[1..][j] == run[j + 1];
      SameFault(p, all + [LinkOf(run[0])], s, run[1..], below, vouched, t);
    }
  }

  lemma {:induction false} SameContext(p: Params, all: seq<Link>, s: nat, h: Header)
    requires Consecutive(all) && s < |all| && h.height == all[|all| - 1].height + 1
    requires s == 0 || p.depth(h.height - 1) <= |all| - s
    ensures CheckContext(p, all[s..], h) == CheckContext(p, all, h)
  {
    hide Consecutive, View;
    ViewSuffix(all, s, h.height - 1, p.depth(h.height - 1));
  }

  /** The window loaded at the computed depth and grown by push gives every
      header of the run the verdict its whole stored ancestry gives. */
  lemma {:induction false} BulkWindowIsEnough(p: Params, t: seq<Row>, q: nat, run: seq<Header>, below: Option<nat>)
    requires Sound(Heads(t)) && q < |t| && run != [] && Linked(run) && run[0].height == t[q].h.height + 1
    ensures ContextFault(p, LoadWindow(t, q, WindowDepth(p, run)), run, below, None, t)
         == ContextFault(p, AncestryLinks(t, q), run, below, None, t)
  {
    hide Sound, ContextFault, LoadWindow, AncestryLinks, Consecutive;
    var all := AncestryLinks(t, q);
    AncestryConsecutive(t, q);
    var s := WindowIsSuffix(t, q, WindowDepth(p, run));
    forall j | 0 <= j < |run|
      ensures run[j].height == t[q].h.height + 1 + j && p.depth(run[j].height - 1) <= WindowDepth(p, run) + j
    {
      LinkedHeights(run, j);
    }
    assert Stands(all, run);
    SameFault(p, all, s, run, below, None, t);
  }

  /** The window of one live header likewise. */
  lemma {:induction false} LiveWindowIsEnough(p: Params, t: seq<Row>, q: nat, h: Header)
    requires Sound(Heads(t)) && q < |t| && h.height == t[q].h.height + 1
    ensures CheckContext(p, LoadWindow(t, q, p.depth(t[q].h.height)), h) == CheckContext(p, AncestryLinks(t, q), h)
  {
    hide Sound, LoadWindow, AncestryLinks, Consecutive, CheckContext;
    AncestryConsecutive(t, q);
    var s := WindowIsSuffix(t, q, p.depth(t[q].h.height));
    SameContext(p, AncestryLinks(t, q), s, h);
  }

  /** The rules a header over the stored row `q` meets, each over the whole
      stored ancestry. */
  ghost predicate RulesPass(p: Params, t: seq<Row>, q: nat, h: Header)
    requires Sound(Heads(t)) && q < |t| && h.height == t[q].h.height + 1
  {
    && p.pow(h) && StoredCheckpointAbove(p, t, h.height, ChainTip(t)).None?
    && CheckContext(p, AncestryLinks(t, q), h).None?
  }

  /** What the first transaction of an accepted header writes first. */
  ghost predicate WritesRow(p: Params, t: seq<Row>, q: nat, h: Header, txs: seq<seq<Stmt>>)
    requires q < |t|
  {
    && txs != [] && txs[0] != [] && txs[0][0].Insert?
    && txs[0][0].row.h == h && txs[0][0].row.link == Some(q) && !txs[0][0].row.tip
    && txs[0][0].row.work == t[q].work + p.work(h.bits)
  }

  lemma {:induction false} JudgedOver(p: Params, t: seq<Row>, h: Header, q: nat)
    requires Sound(Heads(t)) && ParentOf(Heads(t), h) == Some(q) && q < |t| && h.height == t[q].h.height + 1
    ensures Judge(p, t, h).0.None? <==>
              StoredCheckpointAbove(p, t, h.height, ChainTip(t)).None? && CheckContext(p, AncestryLinks(t, q), h).None?
  {
    LiveWindowIsEnough(p, t, q, h);
    hide Sound, LoadWindow, AncestryLinks, CheckContext, ParentOf, StoredCheckpointAbove, ChainTip;
  }

  lemma {:induction false} ReorgAnswers(db: Db, n: nat, tip: nat)
    requires Sound(Heads(db.rows)) && n < |db.rows| && tip < |db.rows|
    ensures !ReorgTo(db, n, tip).result.Refused?
  {
    hide Sound, Heads, CommonAncestor, CountActiveAbove, ReorgBatch, TipMove;
  }

  lemma {:induction false} InsertRefused(p: Params, db: Db, h: Header)
    requires Sound(Heads(db.rows)) && Admissible(Heads(db.rows), h) && Find(Heads(db.rows), h.hash).None?
    requires !p.pow(h) || Judge(p, db.rows, h).0.Some?
    ensures InsertHeader(p, db, h).result.Refused? && InsertHeader(p, db, h).txs == []
  {
    hide Sound, Judge, Run, ChainTip, Find, Admissible, ReorgTo, Heads;
  }

  lemma {:induction false} NewRowIs(p: Params, t: seq<Row>, h: Header, q: nat, active: bool)
    requires ParentOf(Heads(t), h) == Some(q) && q < |t|
    ensures WritesRow(p, t, q, h, [[Insert(NewRow(p, t, h, active))]])
    ensures WritesRow(p, t, q, h, [Extension(NewRow(p, t, h, active))])
    ensures forall more: seq<seq<Stmt>> :: WritesRow(p, t, q, h, [[Insert(NewRow(p, t, h, active))]] + more)
  {
    hide ParentOf, Heads;
  }

  lemma {:induction false} InsertWrites(p: Params, db: Db, h: Header, q: nat)
    requires Sound(Heads(db.rows)) && Admissible(Heads(db.rows), h) && Find(Heads(db.rows), h.hash).None?
    requires ParentOf(Heads(db.rows), h) == Some(q) && q < |db.rows|
    requires p.pow(h) && Judge(p, db.rows, h).0.None?
    ensures WritesRow(p, db.rows, q, h, InsertHeader(p, db, h).txs) && !InsertHeader(p, db, h).result.Refused?
  {
    NewRowIs(p, db.rows, h, q, true);
    NewRowIs(p, db.rows, h, q, false);
    InsertedFits(db, NewRow(p, db.rows, h, false));
    var db1 := Run(db, [Insert(NewRow(p, db.rows, h, false))]);
    var tip := ChainTip(db.rows);
    if tip.Some? { ReorgAnswers(db1, |db.rows|, tip.value); }
    hide Sound, Judge, Run, ChainTip, Find, Admissible, ReorgTo, Heads, NewRow, WritesRow, Extension, ParentOf;
  }

  /** A header new to the store whose parent is stored is refused if and only if
      it breaks a rule over its whole stored ancestry; then nothing is written.
      Accepted, its row is the first thing written, linked to its parent, its
      work on top of the parent's. */
  lemma {:induction false} LiveJudged(p: Params, db: Db, h: Header, q: nat)
    requires Sound(Heads(db.rows)) && Admissible(Heads(db.rows), h) && Find(Heads(db.rows), h.hash).None?
    requires ParentOf(Heads(db.rows), h) == Some(q) && q < |db.rows| && h.height == db.rows[q].h.height + 1
    ensures var out := InsertHeader(p, db, h);
            if RulesPass(p, db.rows, q, h) then WritesRow(p, db.rows, q, h, out.txs) && !out.result.Refused?
            else out.result.Refused? && out.txs == []
  {
    JudgedOver(p, db.rows, h, q);
    hide Sound, Heads, AncestryLinks, CheckContext, Judge, StoredCheckpointAbove, ChainTip, Find, Admissible,
         InsertHeader, WritesRow, ParentOf;
    if RulesPass(p, db.rows, q, h) {
      InsertWrites(p, db, h, q);
    } else {
      InsertRefused(p, db, h);
    }
  }

  lemma {:induction false} RelinkRefused(p: Params, db: Db, hash: Hash, i: nat, q: nat)
    requires Sound(Heads(db.rows)) && i < |db.rows| && q < |db.rows|
    requires Find(Heads(db.rows), hash) == Some(i) && Parent(Heads(db.rows), i) == Some(q)
    requires db.rows[i].h.height == db.rows[q].h.height + 1
    requires CheckContext(p, LoadWindow(db.rows, q, p.depth(db.rows[q].h.height)), db.rows[i].h).Some?
    ensures RelinkOrphan(p, db, hash).result.Refused? && RelinkOrphan(p, db, hash).txs == []
  {
    hide Sound, LoadWindow, CheckContext, Run, ChainTip, Find, Parent, RelinkTx, ReorgTo, Heads;
  }

  lemma {:induction false} RelinkWrites(p: Params, db: Db, hash: Hash, i: nat, q: nat)
    requires Sound(Heads(db.rows)) && i < |db.rows| && q < |db.rows|
    requires Find(Heads(db.rows), hash) == Some(i) && Parent(Heads(db.rows), i) == Some(q)
    requires db.rows[i].h.height == db.rows[q].h.height + 1
    requires CheckContext(p, LoadWindow(db.rows, q, p.depth(db.rows[q].h.height)), db.rows[i].h).None?
    ensures var out := RelinkOrphan(p, db, hash);
            out.txs != [] && out.txs[0] == RelinkTx(p, db.rows, i, q) && !out.result.Refused?
  {
    hide Sound, LoadWindow, CheckContext, Run, ChainTip, Find, Parent, RelinkTx, ReorgTo, Heads, TipMove;
    RelinkEffect(p, db, i, q);
    var db1 := Run(db, RelinkTx(p, db.rows, i, q));
    var tip := ChainTip(db1.rows);
    if tip.Some? { ReorgAnswers(db1, i, tip.value); }
  }

  /** An orphan whose parent came to be stored is linked if and only if it meets
      the context rules over its whole stored ancestry; refused, nothing is
      written and it stays as it was. */
  lemma {:induction false} RelinkJudged(p: Params, db: Db, hash: Hash, i: nat, q: nat)
    requires Sound(Heads(db.rows)) && i < |db.rows| && q < |db.rows|
    requires Find(Heads(db.rows), hash) == Some(i) && Parent(Heads(db.rows), i) == Some(q)
    requires db.rows[i].h.height == db.rows[q].h.height + 1
    ensures var out := RelinkOrphan(p, db, hash);
            if CheckContext(p, AncestryLinks(db.rows, q), db.rows[i].h).None?
            then out.txs != [] && out.txs[0] == RelinkTx(p, db.rows, i, q) && !out.result.Refused?
            else out.result.Refused? && out.txs == []
  {
    hide *;
    LiveWindowIsEnough(p, db.rows, q, db.rows[i].h);
    if CheckContext(p, LoadWindow(db.rows, q, p.depth(db.rows[q].h.height)), db.rows[i].h).None? {
      RelinkWrites(p, db, hash, i, q);
    } else {
      RelinkRefused(p, db, hash, i, q);
    }
  }

  /** On a clean store that ancestry is the whole stored one: every row of the
      path by hash. */
  lemma {:induction false} CleanAncestry(t: seq<Row>, k: nat, i: nat)
    requires CleanAt(t, k) && Sound(Heads(t)) && i < |t|
    ensures Ancestry(t, i) == Path(Heads(t), i)
    decreases t[i].h.height
  {
    var hs := Heads(t);
    match Parent(hs, i) {
      case None =>
      case Some(q) =>
        SoundPair(hs, i, q);
        CleanAncestry(t, k, q);
        if t[i].active { PathStep(hs, k, i); }
        ReachEnds(t, q, t[i].h.height);
    }
  }
}
