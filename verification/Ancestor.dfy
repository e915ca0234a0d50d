/** The common ancestor of two stored rows, and the one transaction that moves
    the active chain onto a winning branch (src/storage.rs:744-897). */
module Ancestor {
  import opened Wrappers
  import opened Headers
  import opened HeaderTable

  /** The walk's limit (`max_steps`, src/storage.rs:756). */
  const REORG_LIMIT := 400

  ghost predicate Common(hs: seq<Header>, a: nat, b: nat, c: nat)
    requires Sound(hs) && a < |hs| && b < |hs|
  {
    c in Path(hs, a) && c in Path(hs, b)
  }

  ghost predicate HighestCommon(hs: seq<Header>, a: nat, b: nat, c: nat)
    requires Sound(hs) && a < |hs| && b < |hs|
  {
    c < |hs| && Common(hs, a, b, c)
    && forall d: nat :: d < |hs| && Common(hs, a, b, d) ==> hs[d].height <= hs[c].height
  }

  ghost predicate Within(hs: seq<Header>, a: nat, b: nat, c: nat)
    requires a < |hs| && b < |hs| && c < |hs|
  {
    Max(hs[a].height, hs[b].height) <= hs[c].height + 400
  }

  /** What the two-pointer walk answers: the highest common stored ancestor
      when it lies within the limit, nothing otherwise. */
  ghost predicate Meets(hs: seq<Header>, a: nat, b: nat, r: Option<nat>)
    requires Sound(hs) && a < |hs| && b < |hs|
  {
    match r
    case Some(c) => HighestCommon(hs, a, b, c) && Within(hs, a, b, c)
    case None => forall c: nat :: HighestCommon(hs, a, b, c) ==> !Within(hs, a, b, c)
  }

  lemma {:induction false} CommonUnique(hs: seq<Header>, a: nat, b: nat, c: nat, d: nat)
    requires Sound(hs) && a < |hs| && b < |hs|
    requires HighestCommon(hs, a, b, c) && HighestCommon(hs, a, b, d)
    ensures c == d
  {
    PathAt(hs, a, c);
    PathAt(hs, a, d);
  }

  ghost function CommonAncestor(hs: seq<Header>, a: nat, b: nat): (r: Option<nat>)
    requires Sound(hs) && a < |hs| && b < |hs|
    ensures Meets(hs, a, b, r)
  {
    if c: nat :| HighestCommon(hs, a, b, c) && Within(hs, a, b, c) then Some(c) else None
  }

  /** The answer is determined: whatever meets the description is it. */
  lemma {:induction false} MeetsUnique(hs: seq<Header>, a: nat, b: nat, r: Option<nat>)
    requires Sound(hs) && a < |hs| && b < |hs| && Meets(hs, a, b, r)
    ensures r == CommonAncestor(hs, a, b)
  {
    var s := CommonAncestor(hs, a, b);
    if r.Some? && s.Some? {
      CommonUnique(hs, a, b, r.value, s.value);
    }
  }

  /** An ancestor is answered exactly when it is the highest common stored one
      and lies at most 400 below the higher of the two rows. */
  lemma {:induction false} CommonAncestorExact(hs: seq<Header>, a: nat, b: nat, c: nat)
    requires Sound(hs) && a < |hs| && b < |hs| && c < |hs|
    ensures CommonAncestor(hs, a, b) == Some(c) <==> HighestCommon(hs, a, b, c) && Within(hs, a, b, c)
  {
    if HighestCommon(hs, a, b, c) && Within(hs, a, b, c) {
      CommonUnique(hs, a, b, c, CommonAncestor(hs, a, b).value);
    }
  }

  // ── The reorg transaction ────────────────────────────────────────────────

  /** The rows of the new branch: the path of the new row above a height. */
  ghost function Branch(hs: seq<Header>, n: nat, floor: nat): (r: seq<nat>)
    requires Sound(hs) && n < |hs|
    ensures forall k :: 0 <= k < |r| ==> r[k] < |hs|
    ensures forall i :: i in r <==> i in Path(hs, n) && hs[i].height > floor
    ensures |r| <= Max(0, hs[n].height - floor)
  {
    var p := Path(hs, n);
    var d := Max(0, Min(|p|, hs[n].height - floor));
    assert forall i :: i in p && hs[i].height > floor ==> i in p[..d] by {
      forall i | i in p && hs[i].height > floor ensures i in p[..d] {
        PathAt(hs, n, i);
        assert p[..d][hs[n].height - hs[i].height] == i;
      }
    }
    p[..d]
  }

  ghost function Activations(hs: seq<Header>, branch: seq<nat>): (r: seq<Stmt>)
    requires forall k :: 0 <= k < |branch| ==> branch[k] < |hs|
    ensures |r| == |branch|
  {
    seq(|branch|, k requires 0 <= k < |branch| => Activate(hs[branch[k]].hash))
  }

  /** The statements of one reorg (src/storage.rs:864-887). */
  ghost function ReorgBatch(hs: seq<Header>, n: nat, c: nat): (r: seq<Stmt>)
    requires Sound(hs) && n < |hs| && c < |hs|
    ensures |r| <= Max(0, hs[n].height - hs[c].height) + 4
  {
    [DeactivateAbove(hs[c].height)]
    + Activations(hs, Branch(hs, n, hs[c].height))
    + [RecordPending(hs[c].height + 1), ClearChainTip, SetChainTipActive(hs[n].hash)]
  }

  lemma {:induction false} RunActivations(db: Db, branch: seq<nat>)
    requires Sound(Heads(db.rows))
    requires forall k :: 0 <= k < |branch| ==> branch[k] < |db.rows|
    ensures var r := Run(db, Activations(Heads(db.rows), branch));
            && r.pending == db.pending && |r.rows| == |db.rows| && Heads(r.rows) == Heads(db.rows)
            && forall i {:trigger r.rows[i]} :: 0 <= i < |db.rows| ==>
                 r.rows[i] == if i in branch then db.rows[i].(active := true) else db.rows[i]
    decreases |branch|
  {
    var hs := Heads(db.rows);
    if branch == [] {
      assert Activations(hs, branch) == [];
    } else {
      var next := Exec(db, Activate(hs[branch[0]].hash));
      ActivateOne(db, branch[0]);
      hide Exec, Sound, Heads;
      assert Activations(hs, branch)[1..] == Activations(hs, branch[1..]);
      RunActivations(next, branch[1..]);
      assert forall i :: i in branch <==> i == branch[0] || i in branch[1..];
    }
  }

  lemma {:induction false} ActivateOne(db: Db, n: nat)
    requires Sound(Heads(db.rows)) && n < |db.rows|
    ensures var r := Exec(db, Activate(Heads(db.rows)[n].hash));
            && r.pending == db.pending && |r.rows| == |db.rows| && Heads(r.rows) == Heads(db.rows)
            && forall i {:trigger r.rows[i]} :: 0 <= i < |db.rows| ==>
                 r.rows[i] == if i == n then db.rows[i].(active := true) else db.rows[i]
  {
    var hs := Heads(db.rows);
    hide Sound;
    forall i | 0 <= i < |hs| ensures hs[i].hash == hs[n].hash ==> i == n {
      SoundPair(hs, i, n);
    }
  }

  /** A row after a reorg: active are the old active rows up to the ancestor and
      the new branch; the new row is the one tip. */
  ghost function ReorgRow(t: seq<Row>, n: nat, c: nat, i: nat): Row
    requires Sound(Heads(t)) && n < |t| && c < |t| && i < |t|
  {
    t[i].(tip := i == n,
          active := i == n || (t[i].active && t[i].h.height <= t[c].h.height)
                    || (i in Path(Heads(t), n) && t[i].h.height > t[c].h.height))
  }

  ghost predicate Reorged(a: Db, b: Db, n: nat, c: nat)
    requires Sound(Heads(a.rows)) && n < |a.rows| && c < |a.rows|
  {
    && |b.rows| == |a.rows|
    && b.pending == Exec(a, RecordPending(a.rows[c].h.height + 1)).pending
    && forall i {:trigger b.rows[i]} :: 0 <= i < |a.rows| ==> b.rows[i] == ReorgRow(a.rows, n, c, i)
  }

  lemma {:induction false} RunReorg(db: Db, a: Stmt, mid: seq<Stmt>, x: Stmt, y: Stmt, z: Stmt)
    ensures Run(db, [a] + mid + [x, y, z]) == Exec(Exec(Exec(Run(Exec(db, a), mid), x), y), z)
  {
    RunAppend(db, [a], mid);
    RunAppend(db, [a] + mid, [x, y, z]);
    RunOne(db, a);
    RunThree(Run(Exec(db, a), mid), x, y, z);
  }

  lemma {:induction false} PendingOnly(a: Db, b: Db, fork: nat)
    requires a.pending == b.pending
    ensures Exec(a, RecordPending(fork)).pending == Exec(b, RecordPending(fork)).pending
  {
  }

  /** The rows of the three flag updates after the activations. */
  lemma {:induction false} ReorgEnd(db: Db, fork: nat, n: nat)
    requires Sound(Heads(db.rows)) && n < |db.rows|
    ensures var d := Exec(Exec(Exec(db, RecordPending(fork)), ClearChainTip), SetChainTipActive(db.rows[n].h.hash));
            && d.pending == Exec(db, RecordPending(fork)).pending && |d.rows| == |db.rows|
            && forall i {:trigger d.rows[i]} :: 0 <= i < |db.rows| ==>
                 d.rows[i] == db.rows[i].(tip := i == n, active := i == n || db.rows[i].active)
  {
    var e := Exec(Exec(db, RecordPending(fork)), ClearChainTip);
    var d := Exec(e, SetChainTipActive(db.rows[n].h.hash));
    forall i | 0 <= i < |db.rows|
      ensures d.rows[i] == db.rows[i].(tip := i == n, active := i == n || db.rows[i].active)
    {
      SoundPair(Heads(db.rows), i, n);
      assert e.rows[i] == db.rows[i].(tip := false);
    }
  }

  lemma {:induction false} DeactivateEffect(db: Db, floor: nat)
    ensures var d := Exec(db, DeactivateAbove(floor));
            && d.pending == db.pending && |d.rows| == |db.rows| && Heads(d.rows) == Heads(db.rows)
            && forall i {:trigger d.rows[i]} :: 0 <= i < |db.rows| ==>
                 d.rows[i] == if floor < db.rows[i].h.height && db.rows[i].active
                              then db.rows[i].(active := false, tip := false) else db.rows[i]
  {
  }

  lemma {:induction false} ReorgEffect(db: Db, n: nat, c: nat)
    requires Sound(Heads(db.rows)) && n < |db.rows| && c < |db.rows|
    ensures Reorged(db, Run(db, ReorgBatch(Heads(db.rows), n, c)), n, c)
  {
    hide Run, Exec, Path, Sound, Branch;
    var hs := Heads(db.rows);
    var floor := hs[c].height;
    var branch := Branch(hs, n, floor);
    var acts := Activations(hs, branch);
    var d1 := Exec(db, DeactivateAbove(floor));
    RunReorg(db, DeactivateAbove(floor), acts, RecordPending(floor + 1), ClearChainTip, SetChainTipActive(hs[n].hash));
    DeactivateEffect(db, floor);
    RunActivations(d1, Branch(hs, n, floor));
    ReorgEnd(Run(d1, acts), floor + 1, n);
    PendingOnly(db, Run(d1, acts), floor + 1);
    ReorgCombine(db.rows, d1.rows, Run(d1, acts).rows, Run(db, ReorgBatch(hs, n, c)).rows, n, c);
  }

  /** The three stages of the reorg put together, row by row. */
  lemma {:induction false} ReorgCombine(t: seq<Row>, t1: seq<Row>, t2: seq<Row>, r: seq<Row>, n: nat, c: nat)
    requires Sound(Heads(t)) && n < |t| && c < |t| && |t| == |t1| == |t2| == |r|
    requires forall i {:trigger t1[i]} :: 0 <= i < |t| ==>
               t1[i] == if t[c].h.height < t[i].h.height && t[i].active then t[i].(active := false, tip := false) else t[i]
    requires forall i {:trigger t2[i]} :: 0 <= i < |t| ==>
               t2[i] == if i in Branch(Heads(t), n, t[c].h.height) then t1[i].(active := true) else t1[i]
    requires forall i {:trigger r[i]} :: 0 <= i < |t| ==>
               r[i] == t2[i].(tip := i == n, active := i == n || t2[i].active)
    ensures forall i {:trigger r[i]} :: 0 <= i < |t| ==> r[i] == ReorgRow(t, n, c, i)
  {
    hide Path, Sound, Branch;
    forall i | 0 <= i < |t| ensures r[i] == ReorgRow(t, n, c, i) {
      assert t2[i].h == t1[i].h == t[i].h;
    }
  }
}
