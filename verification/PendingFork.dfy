/** The pending fork: the lowest height whose served row changed since the last
    announce (src/storage.rs:864-897, 1587-1590), cleared by compare-and-set
    (src/statement_pins.rs:133-134). */
module PendingFork {
  import opened Wrappers
  import opened Headers
  import opened HeaderTable
  import opened Ancestor
  import opened Bulk
  import opened Push

  /** What moves the active rows or the pending fork, in any order: a reorg onto
      row `n` from its ancestor `c`, an activation of a stored run under the
      child `c` that names it, and a clear that carries the fork it announced. */
  datatype Step =
    | Reorg(n: nat, c: nat)
    | Activation(run: seq<Header>, c: nat)
    | Clear(fork: nat)

  /** The store, and the heights whose active row was taken off since the last
      clear that took effect. */
  datatype State = State(db: Db, gone: set<nat>)

  ghost predicate Takes(db: Db, step: Step) {
    Sound(Heads(db.rows)) &&
    match step
    case Reorg(n, c) => n < |db.rows| && c < |db.rows|
    case Activation(run, c) => run != [] && Linked(run) && AllStored(db.rows, run) && c < |db.rows|
    case Clear(_) => true
  }

  /** The one transaction of a step. */
  ghost function Batch(db: Db, step: Step): seq<Stmt>
    requires Takes(db, step)
  {
    match step
    case Reorg(n, c) => ReorgBatch(Heads(db.rows), n, c)
    case Activation(run, c) => ActivationBatch(db.rows, run, c)
    case Clear(fork) => [ClearPending(fork)]
  }

  /** The heights that lost an active row. */
  ghost function TakenOff(t: seq<Row>, u: seq<Row>): set<nat> {
    set i | 0 <= i < |t| && i < |u| && t[i].active && !u[i].active :: t[i].h.height
  }

  ghost predicate TakesEffect(db: Db, step: Step) {
    step.Clear? && db.pending == Some(step.fork)
  }

  ghost function Next(s: State, step: Step): State
    requires Takes(s.db, step)
  {
    var after := Run(s.db, Batch(s.db, step));
    State(after, if TakesEffect(s.db, step) then {} else s.gone + TakenOff(s.db.rows, after.rows))
  }

  /** Every height taken off is at or above the pending fork. */
  ghost predicate Covered(s: State) {
    forall h :: h in s.gone ==> s.db.pending.Some? && s.db.pending.value <= h
  }

  /** A recorded fork is at most the one it was recorded with, and never rises. */
  lemma {:induction false} RecordLowers(a: Db, b: Db, fork: nat)
    requires b.pending == Exec(a, RecordPending(fork)).pending
    ensures b.pending.Some? && b.pending.value <= fork
    ensures a.pending.Some? ==> b.pending.value <= a.pending.value
  {
  }

  lemma {:induction false} ReorgCovered(s: State, n: nat, c: nat)
    requires Takes(s.db, Reorg(n, c)) && Covered(s)
    ensures Covered(Next(s, Reorg(n, c)))
  {
    hide Sound, Path, Run, ReorgBatch;
    var db := s.db;
    var after := Run(db, ReorgBatch(Heads(db.rows), n, c));
    ReorgEffect(db, n, c);
    RecordLowers(db, after, db.rows[c].h.height + 1);
    forall h | h in TakenOff(db.rows, after.rows) ensures db.rows[c].h.height + 1 <= h {
      var i :| 0 <= i < |db.rows| && db.rows[i].active && !after.rows[i].active && db.rows[i].h.height == h;
      assert after.rows[i] == ReorgRow(db.rows, n, c, i);
    }
  }

  /** A row an activation takes off is a rival of the run. */
  lemma {:induction false} TakenOffIsRival(a: Db, b: Db, run: seq<Header>, c: nat, i: nat)
    requires Sound(Heads(a.rows)) && run != [] && Linked(run) && AllStored(a.rows, run) && c < |a.rows|
    requires ActivatedTo(a, b, run, c) && i < |a.rows| && a.rows[i].active && !b.rows[i].active
    ensures Rival(a.rows, run, i)
  {
    LinkedHeights(run, |run| - 1);
    forall j | 0 <= j < |run| ensures run[j].hash != a.rows[i].h.hash {
      assert Stored(a.rows, run[j]);
      var m :| 0 <= m < |a.rows| && a.rows[m].h == run[j];
      if run[j].hash == a.rows[i].h.hash {
        SoundPair(Heads(a.rows), m, i);
        LinkedHeights(run, j);
      }
    }
  }

  /** The lowest rival exists as soon as there is one. */
  lemma {:induction false} SomeLowest(t: seq<Row>, run: seq<Header>, i: nat)
    requires run != [] && Rival(t, run, i)
    ensures exists height: nat :: LowestRival(t, run, height)
    decreases t[i].h.height
  {
    if forall j: nat :: Rival(t, run, j) ==> t[i].h.height <= t[j].h.height {
      assert LowestRival(t, run, t[i].h.height);
    } else {
      var j: nat :| Rival(t, run, j) && t[j].h.height < t[i].h.height;
      SomeLowest(t, run, j);
    }
  }

  /** An activation records the lowest height it takes a row off, or none. */
  lemma {:induction false} PendingExact(db: Db, run: seq<Header>)
    requires run != []
    ensures var r := Run(db, PendingOf(db.rows, run));
            && (forall i: nat :: Rival(db.rows, run, i) ==> r.pending.Some? && r.pending.value <= db.rows[i].h.height)
            && (db.pending.Some? ==> r.pending.Some? && r.pending.value <= db.pending.value)
  {
    hide Rival;
    var ss := PendingOf(db.rows, run);
    if exists height: nat :: LowestRival(db.rows, run, height) {
      var height: nat :| ss == [RecordPending(height)] && LowestRival(db.rows, run, height);
      RunOne(db, RecordPending(height));
      RecordLowers(db, Exec(db, RecordPending(height)), height);
    } else {
      assert Run(db, []) == db;
      forall i: nat | Rival(db.rows, run, i) ensures false { SomeLowest(db.rows, run, i); }
    }
  }

  lemma {:induction false} ActivationCovered(s: State, run: seq<Header>, c: nat)
    requires Takes(s.db, Activation(run, c)) && Covered(s)
    ensures Covered(Next(s, Activation(run, c)))
  {
    hide Sound, Run, ActivationBatch, Rival, Linked, AllStored, ActivatedTo, PendingOf, Heads;
    var db := s.db;
    var after := Run(db, ActivationBatch(db.rows, run, c));
    ActivationEffect(db, run, c);
    PendingExact(db, run);
    ActivatedSize(db, after, run, c);
    forall h | h in TakenOff(db.rows, after.rows) ensures after.pending.Some? && after.pending.value <= h {
      var i :| 0 <= i < |db.rows| && db.rows[i].active && !after.rows[i].active && db.rows[i].h.height == h;
      TakenOffIsRival(db, after, run, c, i);
    }
  }

  lemma {:induction false} ActivatedSize(a: Db, b: Db, run: seq<Header>, c: nat)
    requires run != [] && c < |a.rows| && ActivatedTo(a, b, run, c)
    ensures |b.rows| == |a.rows|
  {
  }

  lemma {:induction false} ClearCovered(s: State, fork: nat)
    requires Takes(s.db, Clear(fork)) && Covered(s)
    ensures Covered(Next(s, Clear(fork)))
    ensures Next(s, Clear(fork)).db.rows == s.db.rows
  {
    hide Sound, Run;
    RunOne(s.db, ClearPending(fork));
    assert Run(s.db, [ClearPending(fork)]).rows == s.db.rows;
  }

  lemma {:induction false} StepCovered(s: State, step: Step)
    requires Takes(s.db, step) && Covered(s)
    ensures Covered(Next(s, step))
  {
    hide Covered, Next, Takes;
    match step {
      case Reorg(n, c) => ReorgCovered(s, n, c);
      case Activation(run, c) => ActivationCovered(s, run, c);
      case Clear(fork) => ClearCovered(s, fork);
    }
  }

  // ── Whole runs ───────────────────────────────────────────────────────────

  /** A run of steps; one the store cannot take is not made. */
  ghost function Steps(s: State, steps: seq<Step>): State
    decreases |steps|
  {
    if steps == [] then s
    else if Takes(s.db, steps[0]) then Steps(Next(s, steps[0]), steps[1..])
    else Steps(s, steps[1..])
  }

  /** Under any order of reorgs, activations and clears every height taken off
      since the last clear that took effect is at or above the pending fork. */
  lemma {:induction false} PendingForkCovers(s: State, steps: seq<Step>)
    requires Covered(s)
    ensures Covered(Steps(s, steps))
    decreases |steps|
  {
    hide Covered, Next, Takes;
    if steps != [] {
      if Takes(s.db, steps[0]) {
        StepCovered(s, steps[0]);
        PendingForkCovers(Next(s, steps[0]), steps[1..]);
      } else {
        PendingForkCovers(s, steps[1..]);
      }
    }
  }

  /** After any such run a clear takes effect only with the recorded fork, and
      then nothing below it was taken off; any other clear, a shallower one
      included, changes nothing. */
  lemma {:induction false} ClearIsExact(s: State, steps: seq<Step>, fork: nat)
    requires Covered(s)
    ensures var a := Steps(s, steps);
            var b := Exec(a.db, ClearPending(fork));
            && (a.db.pending == Some(fork) ==> b.pending == None && forall h :: h in a.gone ==> fork <= h)
            && (a.db.pending != Some(fork) ==> b == a.db)
            && (a.db.pending.Some? && a.db.pending.value < fork ==> b == a.db)
  {
    hide Steps;
    PendingForkCovers(s, steps);
  }
}
