/** A push made again on what a cut-off push left: its rows placed up to some
    header, or all placed and linked, the tip not moved yet
    (src/storage.rs:1212-1289, 1527-1541). */
module PushAgain {
  import opened Wrappers
  import opened Headers
  import opened HeaderTable
  import opened CleanStore
  import opened Live
  import opened Bulk
  import opened Growth
  import opened Push
  import opened PushClean

  // ── What a part of a run adds ────────────────────────────────────────────

  /** Every row stays, the active ones with their work, and what is new or newly
      active is a header of the run. */
  ghost predicate Adds(t: seq<Row>, v: seq<Row>, run: seq<Header>) {
    |t| <= |v| && forall i {:trigger v[i]} :: 0 <= i < |v| ==>
      if i < |t| then
        && v[i].h == t[i].h && (t[i].active ==> v[i].active && v[i].work == t[i].work)
        && (v[i].active ==> t[i].active || v[i].h in run)
      else v[i].h in run
  }

  lemma {:induction false} AddsNothing(t: seq<Row>, run: seq<Header>)
    ensures Adds(t, t, run)
  {
  }

  lemma {:induction false} AddsOn(t: seq<Row>, u: seq<Row>, v: seq<Row>, run: seq<Header>)
    requires run != [] && Adds(t, u, [run[0]]) && Adds(u, v, run[1..])
    ensures Adds(t, v, run)
  {
    forall i | 0 <= i < |v| && i < |u| ensures u[i].h == v[i].h && (v[i].h in [run[0]] ==> v[i].h in run) {
    }
  }

  lemma {:induction false} AddsMore(t: seq<Row>, v: seq<Row>, run: seq<Header>, j: nat)
    requires j <= |run| && Adds(t, v, run[..j])
    ensures Adds(t, v, run)
  {
  }

  lemma {:induction false} PlaceAdds(all: iset<Header>, t: seq<Row>, h: Header, work: nat)
    requires Agree(all) && h in all && AllIn(all, Heads(t))
    ensures Adds(t, Place(t, h, work), [h])
  {
    AgreeAdmits(all, Heads(t), h);
    hide Agree;
  }

  lemma {:induction false} PlaceRunAdds(all: iset<Header>, p: Params, t: seq<Row>, run: seq<Header>, work: nat)
    requires Agree(all) && AllIn(all, run) && AllIn(all, Heads(t)) && Sound(Heads(t))
    ensures Adds(t, PlaceRun(p, t, run, work), run)
    decreases |run|
  {
    if run == [] {
      AddsNothing(t, run);
    } else {
      hide *;
      RestIn(all, run);
      var w := work + p.work(run[0].bits);
      PlaceRunNext(p, t, run, work);
      PlaceAdds(all, t, run[0], w);
      GrowOneIn(all, p, t, run[0], w);
      AgreeAdmits(all, Heads(t), run[0]);
      PlaceSound(t, run[0], w);
      PlaceRunAdds(all, p, Place(t, run[0], w), run[1..], w);
      AddsOn(t, Place(t, run[0], w), PlaceRun(p, t, run, work), run);
    }
  }

  lemma {:induction false} SpanAdds(t: seq<Row>, db: Db, lo: nat, hi: nat, run: seq<Header>)
    requires Adds(t, db.rows, run)
    ensures Adds(t, Run(db, [LinkSpan(lo, hi)]).rows, run)
  {
    hide Run, Heads;
    LinkSpanEffect(db, lo, hi);
    assert forall i {:trigger db.rows[i]} :: 0 <= i < |db.rows| ==> Run(db, [LinkSpan(lo, hi)]).rows[i].h == db.rows[i].h;
  }

  // ── The run is accepted again ────────────────────────────────────────────

  /** A store on the way through a push of the run onto the clean store `t` with
      the tip `k`. */
  ghost predicate Partway(p: Params, t: seq<Row>, k: nat, v: seq<Row>, x: nat, run: seq<Header>) {
    GoodAt(p, t, k) && LinksTrue(t) && Grown(p, v, k, x) && Adds(t, v, run)
  }

  /** The row the run stands on. */
  lemma {:induction false} ParentAgain(p: Params, t: seq<Row>, k: nat, v: seq<Row>, x: nat, run: seq<Header>) returns (q: nat)
    requires Partway(p, t, k, v, x, run) && run != [] && StandsOnStored(t, run) && !Competes(t, run)
    ensures q < |t| && q < |v| && t[q].active && v[q].active && v[q].h == t[q].h && v[q].work == t[q].work
    ensures Find(Heads(t), run[0].prev) == Some(q) && Find(Heads(v), run[0].prev) == Some(q)
  {
    q := Find(Heads(t), run[0].prev).value;
    assert t[q].active;
    hide Sound, Path, Root, Competes;
    assert v[q].h == t[q].h;
    FindIs(Heads(v), q, run[0].prev);
  }

  /** No active row at the run's heights but its own headers. */
  lemma {:induction false} NoRivalAgain(p: Params, t: seq<Row>, k: nat, v: seq<Row>, x: nat, run: seq<Header>, q: nat)
    requires Partway(p, t, k, v, x, run) && run != [] && Linked(run) && !Competes(t, run)
    requires Find(Heads(v), run[0].prev) == Some(q) && v[q].active
    ensures !Competes(v, run) && ChainTip(v) == Some(k) && k < |t| && k < |v| && v[k].h == t[k].h && ChainTip(t) == Some(k)
  {
    CleanTip(t, k);
    GrownTip(p, v, k, x);
    hide Sound, Path, Root, Grown, ChainTip;
    forall i, j | 0 <= i < |v| && 0 <= j < |run| && v[i].active && v[i].h.height == run[j].height
                  && run[0].height <= v[k].h.height
      ensures v[i].h.hash == run[j].hash
    {
      if i < |t| && t[i].active {
        assert t[i].h == v[i].h;
      } else {
        var m :| 0 <= m < |run| && run[m] == v[i].h;
        LinkedHeights(run, m);
        LinkedHeights(run, j);
      }
    }
  }

  lemma {:induction false} GrownTip(p: Params, t: seq<Row>, k: nat, x: nat)
    requires Grown(p, t, k, x)
    ensures ChainTip(t) == Some(k) && k < |t|
  {
    hide Sound, Path, Root;
    assert t[k].tip;
  }

  /** The parent of an active row is the same row in both, or in neither. */
  lemma {:induction false} SameParent(p: Params, t: seq<Row>, k: nat, v: seq<Row>, x: nat, run: seq<Header>, i: nat)
    requires Partway(p, t, k, v, x, run) && run != [] && Linked(run) && i < |t| && t[i].active
    requires t[i].h.height < run[0].height
    ensures Sound(Heads(t)) && Sound(Heads(v)) && i < |v| && v[i].h == t[i].h && v[i].active
    ensures Parent(Heads(v), i) == Parent(Heads(t), i)
    ensures Parent(Heads(t), i).Some? ==> t[Parent(Heads(t), i).value].active
  {
    assert v[i].h == t[i].h;
    var hs, hv := Heads(t), Heads(v);
    if Parent(hs, i).Some? {
      var q := Parent(hs, i).value;
      PathStep(hs, k, i);
      hide Sound, Path, Root;
      assert v[q].h == t[q].h;
      ParentIs(hv, i, q);
    } else if Parent(hv, i).Some? {
      var q := Parent(hv, i).value;
      SoundPair(hv, i, q);
      hide Sound, Path, Root;
      if q < |t| {
        assert v[q].h == t[q].h;
        ParentIs(hs, i, q);
      } else {
        var m :| 0 <= m < |run| && run[m] == v[q].h;
        LinkedHeights(run, m);
      }
    }
  }

  /** The rows loaded under an active row are the same. */
  lemma {:induction false} SameReach(p: Params, t: seq<Row>, k: nat, v: seq<Row>, x: nat, run: seq<Header>, i: nat, depth: nat)
    requires Partway(p, t, k, v, x, run) && run != [] && Linked(run) && i < |t| && t[i].active
    requires t[i].h.height < run[0].height
    ensures Sound(Heads(t)) && Sound(Heads(v)) && i < |v|
    ensures Reach(v, i, depth) == Reach(t, i, depth)
    decreases depth
  {
    SameParent(p, t, k, v, x, run, i);
    var parent := Parent(Heads(t), i);
    if parent.Some? {
      var q := parent.value;
      SoundPair(Heads(t), i, q);
      assert v[q].active by { KeptActive(p, t, k, v, x, run, q); }
      hide Partway, Sound, Heads;
      if 1 < depth { SameReach(p, t, k, v, x, run, q, depth - 1); }
    }
  }

  lemma {:induction false} KeptActive(p: Params, t: seq<Row>, k: nat, v: seq<Row>, x: nat, run: seq<Header>, q: nat)
    requires Partway(p, t, k, v, x, run) && q < |t| && t[q].active
    ensures q < |v| && v[q].active && v[q].h == t[q].h && v[q].work == t[q].work
  {
  }

  lemma {:induction false} SameWindow(p: Params, t: seq<Row>, k: nat, v: seq<Row>, x: nat, run: seq<Header>, q: nat, depth: nat)
    requires Partway(p, t, k, v, x, run) && run != [] && Linked(run) && q < |t| && t[q].active
    requires t[q].h.height < run[0].height
    ensures Sound(Heads(t)) && Sound(Heads(v)) && q < |v| && LoadWindow(v, q, depth) == LoadWindow(t, q, depth)
  {
    SameReach(p, t, k, v, x, run, q, depth);
    assert |t| <= |v| && forall i :: 0 <= i < |t| ==> v[i].h == t[i].h;
    hide Partway, Sound, Reach;
    SameLinks(Heads(t), Heads(v), Reach(t, q, depth));
  }

  lemma {:induction false} SameLinks(hs: seq<Header>, hv: seq<Header>, rows: seq<nat>)
    requires |hs| <= |hv| && forall i :: 0 <= i < |hs| ==> hv[i] == hs[i]
    requires forall n :: 0 <= n < |rows| ==> rows[n] < |hs|
    ensures Links(hv, rows) == Links(hs, rows)
  {
  }

  /** A header of the run at or below the tip is the one row served at its
      height. */
  lemma {:induction false} ServedAgain(p: Params, t: seq<Row>, k: nat, v: seq<Row>, x: nat, run: seq<Header>, j: nat)
    requires Partway(p, t, k, v, x, run) && k < |t| && StandsOn(t, k, run) && Linked(run) && j < |run|
    requires run[j].height <= t[k].h.height
    requires forall m :: 0 <= m < |run| && run[m].prev == t[k].h.hash ==> t[k].h.height < run[m].height
    ensures ServedAt(v, run[j])
  {
    StandsActive(t, k, run, j);
    var i :| 0 <= i < |t| && t[i].active && t[i].h == run[j];
    KeptActive(p, t, k, v, x, run, i);
    forall m: nat | i < m < |v| && v[m].active ensures v[m].h.height != run[j].height {
      if v[m].h.height == run[j].height { GrownApart(p, v, k, x, i, m); }
    }
  }

  /** Up to the header that stands on the tip every one is active. */
  lemma {:induction false} StandsActive(t: seq<Row>, k: nat, run: seq<Header>, j: nat)
    requires k < |t| && StandsOn(t, k, run) && Linked(run) && j < |run| && run[j].height <= t[k].h.height
    requires forall m :: 0 <= m < |run| && run[m].prev == t[k].h.hash ==> t[k].h.height < run[m].height
    ensures ActiveRow(t, run[j])
    decreases |run|
  {
    LinkedHeights(run, j);
    hide ActiveRow;
    if 0 < j {
      forall m | 0 <= m < |run[1..]| && run[1..][m].prev == t[k].h.hash ensures t[k].h.height < run[1..][m].height {
        assert run[1..][m] == run[m + 1];
      }
      assert run[0] == run[0] && run[0].height <= run[j].height;
      StandsActive(t, k, run[1..], j - 1);
    }
  }

  /** The rules a run met are met over another table where a checkpoint above
      finds its headers served. */
  lemma {:induction false} FaultAgain(p: Params, links: seq<Link>, run: seq<Header>, below: Option<nat>, t: seq<Row>,
                                      above: Option<nat>, v: seq<Row>)
    requires ContextFault(p, links, run, below, None, t).None?
    requires forall j :: 0 <= j < |run| && above.Some? && run[j].height < above.value ==> ServedAt(v, run[j])
    ensures ContextFault(p, links, run, above, None, v).None?
    decreases |run|
  {
    if run != [] {
      hide CheckContext, ServedAt;
      assert run[0] == run[0];
      forall j | 0 <= j < |run[1..]| && above.Some? && run[1..][j].height < above.value ensures ServedAt(v, run[1..][j]) {
        assert run[1..][j] == run[j + 1];
      }
      FaultAgain(p, links + [LinkOf(run[0])], run[1..], below, t, above, v);
    }
  }

  lemma {:induction false} AboveIsLow(list: seq<(nat, Hash)>, hs: seq<Header>, height: nat, tipHeight: nat)
    ensures CheckpointAbove(list, hs, height, tipHeight).Some? ==>
              CheckpointAbove(list, hs, height, tipHeight).value <= tipHeight
    decreases |list|
  {
    if list != [] { AboveIsLow(list[..|list| - 1], hs, height, tipHeight); }
  }

  /** What the run's judgment comes to when its parent is stored. */
  lemma {:induction false} JudgedOver(p: Params, t: seq<Row>, run: seq<Header>, q: nat)
    requires Sound(Heads(t)) && run != [] && Find(Heads(t), run[0].prev) == Some(q)
    ensures JudgeRun(p, t, run).None? <==>
              && (forall i :: 0 <= i < |run| ==> p.pow(run[i])) && Linked(run) && run[0].height == t[q].h.height + 1
              && ContextFault(p, LoadWindow(t, q, WindowDepth(p, run)), run,
                              StoredCheckpointAbove(p, t, run[0].height, ChainTip(t)), None, t).None?
  {
    hide Sound, Heads, Find, Linked, ContextFault, LoadWindow, WindowDepth, StoredCheckpointAbove, ChainTip;
  }

  /** The run of a push cut off is accepted again, on the bulk path and over the
      same work. */
  lemma {:induction false} AcceptedAgain(all: iset<Header>, p: Params, t: seq<Row>, k: nat, v: seq<Row>, x: nat, run: seq<Header>)
    requires Agree(all) && AllIn(all, run) && AllIn(all, Heads(t)) && Sound(Heads(t)) && Sound(Heads(v))
    requires Partway(p, t, k, v, x, run) && run != [] && StandsOnStored(t, run)
    requires JudgeRun(p, t, run).None? && !Competes(t, run)
    ensures JudgeRun(p, v, run).None? && !Competes(v, run) && StandsOnStored(v, run) && RunWork(v, run) == RunWork(t, run)
  {
    var q := ParentAgain(p, t, k, v, x, run);
    assert GoodAt(p, t, k) && AllStands(all, t, k, run) by { PartStands(all, p, t, k, v, x, run); }
    JudgedOver(p, t, run, q);
    JudgedOver(p, v, run, q);
    NoRivalAgain(p, t, k, v, x, run, q);
    SameWindow(p, t, k, v, x, run, q, WindowDepth(p, run));
    var above := StoredCheckpointAbove(p, v, run[0].height, Some(k));
    AboveIsLow(p.checkpoints, Heads(v), run[0].height, v[k].h.height);
    hide Sound, Heads, Find, JudgeRun, Competes, ContextFault, LoadWindow, ChainTip, Partway, GoodAt, Agree, AllIn, WindowDepth;
    forall j | 0 <= j < |run| && above.Some? && run[j].height < above.value ensures ServedAt(v, run[j]) {
      ServedAgain(p, t, k, v, x, run, j);
    }
    FaultAgain(p, LoadWindow(t, q, WindowDepth(p, run)), run,
               StoredCheckpointAbove(p, t, run[0].height, ChainTip(t)), t, above, v);
  }

  /** The run stands on the active chain, above the tip from its child on. */
  ghost predicate AllStands(all: iset<Header>, t: seq<Row>, k: nat, run: seq<Header>) {
    && k < |t| && StandsOn(t, k, run)
    && forall m :: 0 <= m < |run| && run[m].prev == t[k].h.hash ==> t[k].h.height < run[m].height
  }

  lemma {:induction false} PartStands(all: iset<Header>, p: Params, t: seq<Row>, k: nat, v: seq<Row>, x: nat, run: seq<Header>)
    requires Agree(all) && AllIn(all, run) && AllIn(all, Heads(t)) && Sound(Heads(t))
    requires Partway(p, t, k, v, x, run) && run != [] && StandsOnStored(t, run)
    requires JudgeRun(p, t, run).None? && !Competes(t, run)
    ensures GoodAt(p, t, k) && AllStands(all, t, k, run)
  {
    JudgedLinked(p, t, run);
    CleanTip(t, k);
    HeadAt(t, k);
    RunOnChain(all, p, t, k, run);
    hide Sound, Grown, Path, Root, JudgeRun, Competes, GoodAt, Adds;
    forall m | 0 <= m < |run| && run[m].prev == t[k].h.hash ensures t[k].h.height < run[m].height {
      assert Heads(t)[k] in all && run[m] in all;
    }
  }
}
