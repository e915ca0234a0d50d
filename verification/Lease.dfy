/** The writer lease and its fence: a time-bounded lock on one row, checked
    inside every header transaction (src/statement_pins.rs:576-579, 613, 658;
    src/sync.rs:163-400, 958-1000). */
module Lease {
  import opened Wrappers
  import opened HeaderTable

  type Token = nat

  /** The lease columns of the one `sync_state` row. */
  datatype LeaseRow = LeaseRow(owner: Option<Token>, until: Option<nat>)

  const FREE := LeaseRow(None, None)

  /** `strftime('%s', 'now')`: the clock's second. */
  function Second(ms: nat): nat {
    ms / 1000
  }

  predicate MayTake(row: LeaseRow, token: Token, ms: nat) {
    row.owner.None? || row.owner == Some(token) || (row.until.Some? && row.until.value < Second(ms))
  }

  function Taken(row: LeaseRow, token: Token, term: nat, ms: nat): LeaseRow {
    if MayTake(row, token, ms) then LeaseRow(Some(token), Some(Second(ms) + term)) else row
  }

  function Released(row: LeaseRow, token: Token): LeaseRow {
    if row.owner == Some(token) then FREE else row
  }

  /** The fence refuses, and rolls its transaction back, unless this holds. */
  predicate FencePasses(row: LeaseRow, token: Token, ms: nat) {
    row.owner == Some(token) && Second(ms) <= if row.until.Some? then row.until.value else 0
  }

  /** The milliseconds left of `token`'s lease (`LEASE_LEFT_SQL`; no row and a
      null term read as 0, src/sync.rs:974-997). */
  function LeaseLeft(row: LeaseRow, token: Token, ms: nat): int {
    if row.owner == Some(token) && row.until.Some? then (row.until.value + 1) * 1000 - ms else 0
  }

  /** The remaining term is positive exactly while the fence passes. */
  lemma {:induction false} LeftIsFence(row: LeaseRow, token: Token, ms: nat)
    requires row.owner.Some? ==> row.until.Some?
    ensures 0 < LeaseLeft(row, token, ms) <==> FencePasses(row, token, ms)
  {
    if row.until.Some? {
      var u := row.until.value;
      assert ms == Second(ms) * 1000 + ms % 1000;
    }
  }

  /** The row as the statements update it in place. */
  class SyncState {
    var owner: Option<Token>
    var until: Option<nat>

    function Lease(): LeaseRow
      reads this
    {
      LeaseRow(owner, until)
    }

    constructor ()
      ensures Lease() == FREE
    {
      owner, until := None, None;
    }

    /** `TAKE_LEASE_SQL`; the answer is the changed rows (src/sync.rs:213-236). */
    method Take(token: Token, term: nat, ms: nat) returns (changed: nat)
      modifies this
      ensures Lease() == Taken(old(Lease()), token, term, ms)
      ensures changed == if MayTake(old(Lease()), token, ms) then 1 else 0
    {
      if owner == None || owner == Some(token) || (until.Some? && until.value < Second(ms)) {
        owner, until, changed := Some(token), Some(Second(ms) + term), 1;
      } else {
        changed := 0;
      }
    }

    /** `RELEASE_LEASE_SQL`. */
    method Release(token: Token)
      modifies this
      ensures Lease() == Released(old(Lease()), token)
    {
      if owner == Some(token) {
        owner, until := None, None;
      }
    }

    /** `FENCE_SQL`, at the head of a transaction: a refusal is the row's
        `CHECK (id = 1)`. */
    method Fence(token: Token, ms: nat) returns (passes: bool)
      ensures passes <==> FencePasses(Lease(), token, ms)
    {
      var term := if until.Some? then until.value else 0;
      passes := owner == Some(token) && term >= Second(ms);
    }
  }

  // ── Writers interleaved ──────────────────────────────────────────────────

  /** What a holder does: read the whole store, or hand it a header transaction
      whose statements it computed from all it has read since its take. */
  datatype Op = Read | Write(plan: seq<Db> -> seq<Stmt>)

  /** One step of any writer, or of the clock. */
  datatype Step =
    | Tick(ms: nat)
    | Take(token: Token)
    | Act(token: Token, op: Op)
    | Release(token: Token)

  /** A holder's view (`Fenced`): its reads, and whether a write of it was
      refused. */
  datatype Writer = Writer(seen: seq<Db>, lapsed: bool)

  /** `asked` are the tokens asked with so far, `landed` the holders of the
      landed transactions in order. */
  datatype System = System(ms: nat, row: LeaseRow, db: Db, writers: map<Token, Writer>,
                           asked: set<Token>, landed: seq<Token>)

  function Start(db: Db): System {
    System(0, FREE, db, map[], {}, [])
  }

  /** The clock never goes back; a take asks with a fresh token; only a writer
      that took acts. */
  predicate Enabled(s: System, step: Step) {
    match step
    case Tick(ms) => s.ms <= ms
    case Take(token) => token !in s.asked
    case Act(token, _) => token in s.writers
    case Release(token) => token in s.asked
  }

  /** The write lands: no refusal before, and the fence passes. */
  predicate Lands(s: System, token: Token) {
    token in s.writers && !s.writers[token].lapsed && FencePasses(s.row, token, s.ms)
  }

  ghost function Next(s: System, step: Step, term: nat): System
    requires Enabled(s, step)
  {
    match step
    case Tick(ms) => s.(ms := ms)
    case Take(token) =>
      if MayTake(s.row, token, s.ms)
      then s.(row := Taken(s.row, token, term, s.ms), writers := s.writers[token := Writer([], false)],
              asked := s.asked + {token})
      else s.(asked := s.asked + {token})
    case Act(token, op) =>
      var w := s.writers[token];
      (match op
       case Read => s.(writers := s.writers[token := w.(seen := w.seen + [s.db])])
       case Write(plan) =>
         if Lands(s, token)
         then s.(db := Run(s.db, plan(w.seen)), landed := s.landed + [token])
         else s.(writers := s.writers[token := w.(lapsed := true)]))
    case Release(token) => s.(row := Released(s.row, token))
  }

  /** A trace; a step that is not enabled is not made. */
  ghost function Trace(s: System, steps: seq<Step>, term: nat): System
    decreases |steps|
  {
    if steps == [] then s
    else if Enabled(s, steps[0]) then Trace(Next(s, steps[0], term), steps[1..], term)
    else Trace(s, steps[1..], term)
  }

  // ── The holds one after another ──────────────────────────────────────────

  /** A hold and what it did of its operations. */
  datatype Hold = Hold(token: Token, ops: seq<Op>)

  /** A hold run alone: its reads and the store after it. */
  ghost function Alone(db: Db, ops: seq<Op>): (seq<Db>, Db)
    decreases |ops|
  {
    if ops == [] then ([], db)
    else
      var n := |ops| - 1;
      var (seen, after) := Alone(db, ops[..n]);
      match ops[n]
      case Read => (seen + [after], after)
      case Write(plan) => (seen, Run(after, plan(seen)))
  }

  ghost function Serial(db: Db, holds: seq<Hold>): Db
    decreases |holds|
  {
    if holds == [] then db else Alone(Serial(db, holds[..|holds| - 1]), holds[|holds| - 1].ops).1
  }

  /** The holders of the transactions the holds make, in order. */
  function WritesOf(hold: Hold): seq<Token>
    decreases |hold.ops|
  {
    if hold.ops == [] then []
    else
      var n := |hold.ops| - 1;
      WritesOf(Hold(hold.token, hold.ops[..n])) + if hold.ops[n].Write? then [hold.token] else []
  }

  function Writes(holds: seq<Hold>): seq<Token>
    decreases |holds|
  {
    if holds == [] then [] else Writes(holds[..|holds| - 1]) + WritesOf(holds[|holds| - 1])
  }

  /** The last hold goes on with an operation. */
  predicate GoesOn(s: System, holds: seq<Hold>, token: Token, op: Op) {
    && holds != [] && holds[|holds| - 1].token == token && token in s.writers && !s.writers[token].lapsed
    && (op.Write? ==> Lands(s, token))
  }

  function Extend(holds: seq<Hold>, op: Op): (r: seq<Hold>)
    requires holds != []
    ensures |r| == |holds| && r[..|holds| - 1] == holds[..|holds| - 1]
  {
    var n := |holds| - 1;
    holds[n := Hold(holds[n].token, holds[n].ops + [op])]
  }

  /** The holds so far: a take that succeeds opens one, the operations of the
      last one count until a write of it is refused. */
  function Noted(s: System, holds: seq<Hold>, step: Step): seq<Hold>
  {
    match step
    case Take(token) => if MayTake(s.row, token, s.ms) then holds + [Hold(token, [])] else holds
    case Act(token, op) => if GoesOn(s, holds, token, op) then Extend(holds, op) else holds
    case _ => holds
  }

  ghost function Holds(s: System, holds: seq<Hold>, steps: seq<Step>, term: nat): seq<Hold>
    decreases |steps|
  {
    if steps == [] then holds
    else if Enabled(s, steps[0]) then Holds(Next(s, steps[0], term), Noted(s, holds, steps[0]), steps[1..], term)
    else Holds(s, holds, steps[1..], term)
  }

  // ── The invariant ────────────────────────────────────────────────────────

  /** The store is what the holds leave one after another; the owner is the last
      hold's; that hold, not refused yet, has read what it would have read alone. */
  ghost predicate InOrder(db: Db, s: System, holds: seq<Hold>) {
    && s.db == Serial(db, holds) && s.landed == Writes(holds)
    && (s.row.owner.Some? ==> s.row.until.Some? && holds != [] && s.row.owner.value == holds[|holds| - 1].token)
    && (forall t :: t in s.writers ==> t in s.asked)
    && (holds != [] ==>
          var last := holds[|holds| - 1];
          && last.token in s.writers
          && (!s.writers[last.token].lapsed ==>
                s.writers[last.token].seen == Alone(Serial(db, holds[..|holds| - 1]), last.ops).0))
  }

  lemma {:induction false} TakeKeeps(db: Db, s: System, holds: seq<Hold>, token: Token, term: nat)
    requires InOrder(db, s, holds) && Enabled(s, Take(token))
    ensures InOrder(db, Next(s, Take(token), term), Noted(s, holds, Take(token)))
  {
    var more := holds + [Hold(token, [])];
    assert more[..|more| - 1] == holds;
    assert Alone(Serial(db, holds), []) == ([], Serial(db, holds));
    assert Serial(db, more) == Serial(db, holds);
    assert WritesOf(Hold(token, [])) == [];
    assert Writes(more) == Writes(holds);
  }

  lemma {:induction false} AloneOneMore(db: Db, ops: seq<Op>, op: Op)
    ensures var (seen, after) := Alone(db, ops);
            Alone(db, ops + [op]) == match op
              case Read => (seen + [after], after)
              case Write(plan) => (seen, Run(after, plan(seen)))
  {
    assert (ops + [op])[..|ops|] == ops;
  }

  lemma {:induction false} WritesOneMore(holds: seq<Hold>, op: Op)
    requires holds != []
    ensures Writes(Extend(holds, op)) ==
              Writes(holds) + if op.Write? then [holds[|holds| - 1].token] else []
  {
    var n := |holds| - 1;
    var hold := Extend(holds, op)[n];
    assert hold.ops[..|hold.ops| - 1] == holds[n].ops;
  }

  /** The last hold's operation: a read, or a write that lands. */
  lemma {:induction false} OpKeeps(db: Db, s: System, holds: seq<Hold>, token: Token, op: Op, term: nat)
    requires InOrder(db, s, holds) && Enabled(s, Act(token, op)) && GoesOn(s, holds, token, op)
    ensures InOrder(db, Next(s, Act(token, op), term), Extend(holds, op))
  {
    var n := |holds| - 1;
    AloneOneMore(Serial(db, holds[..n]), holds[n].ops, op);
    WritesOneMore(holds, op);
    hide Run;
  }

  /** Any other operation: a read of a writer that is not the last hold's or was
      refused, or a refused write. */
  lemma {:induction false} IdleKeeps(db: Db, s: System, holds: seq<Hold>, token: Token, op: Op, term: nat)
    requires InOrder(db, s, holds) && Enabled(s, Act(token, op)) && !GoesOn(s, holds, token, op)
    ensures InOrder(db, Next(s, Act(token, op), term), holds)
    ensures Next(s, Act(token, op), term).db == s.db && Next(s, Act(token, op), term).landed == s.landed
  {
    hide Serial, Alone, Writes;
  }

  lemma {:induction false} StepKeeps(db: Db, s: System, holds: seq<Hold>, step: Step, term: nat)
    requires InOrder(db, s, holds) && Enabled(s, step)
    ensures InOrder(db, Next(s, step, term), Noted(s, holds, step))
  {
    match step {
      case Tick(_) => hide Serial, Alone, Writes;
      case Take(token) => TakeKeeps(db, s, holds, token, term);
      case Act(token, op) =>
        if GoesOn(s, holds, token, op) {
          OpKeeps(db, s, holds, token, op, term);
        } else {
          IdleKeeps(db, s, holds, token, op, term);
        }
      case Release(_) => hide Serial, Alone, Writes;
    }
  }

  lemma {:induction false} TraceKeeps(db: Db, s: System, holds: seq<Hold>, steps: seq<Step>, term: nat)
    requires InOrder(db, s, holds)
    ensures InOrder(db, Trace(s, steps, term), Holds(s, holds, steps, term))
    decreases |steps|
  {
    hide InOrder, Next, Noted, Enabled;
    if steps != [] {
      if Enabled(s, steps[0]) {
        StepKeeps(db, s, holds, steps[0], term);
        TraceKeeps(db, Next(s, steps[0], term), Noted(s, holds, steps[0]), steps[1..], term);
      } else {
        TraceKeeps(db, s, holds, steps[1..], term);
      }
    }
  }

  /** For every interleaving the store equals the holds run one after another,
      their transactions landed hold by hold. */
  lemma {:induction false} HoldsAreSerial(db: Db, steps: seq<Step>, term: nat)
    ensures var s := Trace(Start(db), steps, term);
            var holds := Holds(Start(db), [], steps, term);
            s.db == Serial(db, holds) && s.landed == Writes(holds)
  {
    assert InOrder(db, Start(db), []);
    TraceKeeps(db, Start(db), [], steps, term);
  }

  // ── Each hold cut to a prefix ────────────────────────────────────────────

  /** The operations a token made in a trace. */
  ghost function Made(s: System, steps: seq<Step>, term: nat, token: Token): seq<Op>
    decreases |steps|
  {
    if steps == [] then []
    else if Enabled(s, steps[0]) then
      MadeBy(steps[0], token) + Made(Next(s, steps[0], term), steps[1..], term, token)
    else Made(s, steps[1..], term, token)
  }

  function MadeBy(step: Step, token: Token): seq<Op> {
    if step.Act? && step.token == token then [step.op] else []
  }

  /** A hold still open: the last, and no write of it refused. */
  predicate Open(s: System, holds: seq<Hold>, i: nat) {
    i + 1 == |holds| && holds[i].token in s.writers && !s.writers[holds[i].token].lapsed
  }

  /** Holds are of tokens asked with, one each; those of `token` are a prefix of
      what it made so far, all of it while open. */
  ghost predicate PrefixSoFar(s: System, holds: seq<Hold>, token: Token, made: seq<Op>) {
    && (forall i :: 0 <= i < |holds| ==> holds[i].token in s.asked)
    && (forall i, j :: 0 <= i < j < |holds| ==> holds[i].token != holds[j].token)
    && (forall t :: t in s.writers ==> t in s.asked)
    && (token !in s.asked ==> made == [])
    && (forall i: nat :: i < |holds| && holds[i].token == token ==> holds[i].ops <= made)
    && (forall i: nat :: i < |holds| && holds[i].token == token && Open(s, holds, i) ==> holds[i].ops == made)
  }

  lemma {:induction false} StepPrefix(s: System, holds: seq<Hold>, step: Step, term: nat, token: Token, made: seq<Op>)
    requires PrefixSoFar(s, holds, token, made) && Enabled(s, step)
    ensures PrefixSoFar(Next(s, step, term), Noted(s, holds, step), token, made + MadeBy(step, token))
  {
    hide Run, Second, FencePasses;
    match step {
      case Tick(_) =>
      case Take(_) =>
      case Act(other, op) =>
        if GoesOn(s, holds, other, op) { ActPrefix(s, holds, other, op, term, token, made); }
      case Release(_) =>
    }
  }

  lemma {:induction false} ActPrefix(s: System, holds: seq<Hold>, other: Token, op: Op, term: nat, token: Token, made: seq<Op>)
    requires PrefixSoFar(s, holds, token, made) && Enabled(s, Act(other, op)) && GoesOn(s, holds, other, op)
    ensures PrefixSoFar(Next(s, Act(other, op), term), Extend(holds, op), token, made + MadeBy(Act(other, op), token))
  {
    hide Run, Second, FencePasses;
    var n: nat := |holds| - 1;
    assert Open(s, holds, n);
    var more := Extend(holds, op);
    assert forall i :: 0 <= i < n ==> more[i] == holds[i];
    assert more[n].token == holds[n].token && more[n].ops == holds[n].ops + [op];
  }

  lemma {:induction false} TracePrefix(s: System, holds: seq<Hold>, steps: seq<Step>, term: nat, token: Token, made: seq<Op>)
    requires PrefixSoFar(s, holds, token, made)
    ensures PrefixSoFar(Trace(s, steps, term), Holds(s, holds, steps, term), token, made + Made(s, steps, term, token))
    decreases |steps|
  {
    hide PrefixSoFar, Next, Noted, Enabled, MadeBy;
    if steps == [] {
      assert made + [] == made;
    } else if Enabled(s, steps[0]) {
      var next := Next(s, steps[0], term);
      StepPrefix(s, holds, steps[0], term, token, made);
      TracePrefix(next, Noted(s, holds, steps[0]), steps[1..], term, token, made + MadeBy(steps[0], token));
      assert made + MadeBy(steps[0], token) + Made(next, steps[1..], term, token)
          == made + (MadeBy(steps[0], token) + Made(next, steps[1..], term, token));
    } else {
      TracePrefix(s, holds, steps[1..], term, token, made);
    }
  }

  /** Each hold that counts is a prefix of what its holder made. */
  lemma {:induction false} HoldsArePrefixes(db: Db, steps: seq<Step>, term: nat, i: nat)
    requires i < |Holds(Start(db), [], steps, term)|
    ensures var hold := Holds(Start(db), [], steps, term)[i];
            hold.ops <= Made(Start(db), steps, term, hold.token)
  {
    var token := Holds(Start(db), [], steps, term)[i].token;
    assert PrefixSoFar(Start(db), [], token, []);
    TracePrefix(Start(db), [], steps, term, token, []);
    assert [] + Made(Start(db), steps, term, token) == Made(Start(db), steps, term, token);
  }

  // ── A lapsed holder ──────────────────────────────────────────────────────

  /** The token asked once and its fence does not pass. */
  predicate Lapsed(s: System, token: Token) {
    token in s.asked && !FencePasses(s.row, token, s.ms)
  }

  lemma {:induction false} SecondGrows(a: nat, b: nat)
    requires a <= b
    ensures Second(a) <= Second(b)
  {
  }

  lemma {:induction false} StepLapsed(s: System, step: Step, term: nat, token: Token)
    requires Lapsed(s, token) && Enabled(s, step)
    ensures Lapsed(Next(s, step, term), token)
    ensures multiset(Next(s, step, term).landed)[token] == multiset(s.landed)[token]
    ensures step.Act? && step.token == token ==>
              Next(s, step, term).db == s.db && Next(s, step, term).row == s.row
  {
    hide Run;
    if step.Tick? { SecondGrows(s.ms, step.ms); }
    hide Second;
  }

  /** Once a holder's fence does not pass it never passes again, and no later
      transaction of it lands. */
  lemma {:induction false} LapsedStays(s: System, steps: seq<Step>, term: nat, token: Token)
    requires Lapsed(s, token)
    ensures Lapsed(Trace(s, steps, term), token)
    ensures multiset(Trace(s, steps, term).landed)[token] == multiset(s.landed)[token]
    decreases |steps|
  {
    if steps != [] {
      hide Lapsed, Next, Enabled;
      if Enabled(s, steps[0]) {
        StepLapsed(s, steps[0], term, token);
        LapsedStays(Next(s, steps[0], term), steps[1..], term, token);
      } else {
        LapsedStays(s, steps[1..], term, token);
      }
    }
  }

  /** Steps of one token alone. */
  predicate OnlyOf(steps: seq<Step>, token: Token) {
    forall i :: 0 <= i < |steps| ==> (steps[i].Act? || steps[i].Release?) && steps[i].token == token
  }

  /** Whatever a holder does after a successor took the lease, its release
      included, the lease stays the successor's and the store as it was. */
  lemma {:induction false} SuccessorUntouched(s: System, steps: seq<Step>, term: nat, token: Token)
    requires OnlyOf(steps, token) && s.row.owner.Some? && s.row.owner != Some(token)
    ensures Trace(s, steps, term).row == s.row && Trace(s, steps, term).db == s.db
    decreases |steps|
  {
    if steps != [] {
      assert forall i :: 0 <= i < |steps| - 1 ==> steps[1..][i] == steps[i + 1];
      hide Run, Second;
      if Enabled(s, steps[0]) {
        SuccessorUntouched(Next(s, steps[0], term), steps[1..], term, token);
      } else {
        SuccessorUntouched(s, steps[1..], term, token);
      }
    }
  }

  // ── Taking over ──────────────────────────────────────────────────────────

  /** No holder's fence passes: the lease is free, or lapsed. */
  ghost predicate Unheld(s: System) {
    forall owner: Token :: !FencePasses(s.row, owner, s.ms)
  }

  /** A lease is held with a term, by a token that asked. */
  ghost predicate Termed(s: System) {
    s.row.owner.Some? ==> s.row.until.Some? && s.row.owner.value in s.asked
  }

  lemma {:induction false} TraceTermed(s: System, steps: seq<Step>, term: nat)
    requires Termed(s) && forall t :: t in s.writers ==> t in s.asked
    ensures Termed(Trace(s, steps, term))
    decreases |steps|
  {
    hide Run;
    if steps != [] {
      TraceTermed(if Enabled(s, steps[0]) then Next(s, steps[0], term) else s, steps[1..], term);
    }
  }

  lemma {:induction false} FreshTakes(s: System, token: Token, term: nat)
    requires Termed(s) && token !in s.asked
    ensures var e := Next(s, Take(token), term);
            && (Unheld(s) <==> Lands(e, token))
            && (Unheld(s) ==> e.row == LeaseRow(Some(token), Some(Second(s.ms) + term)))
            && (!Unheld(s) ==> e.row == s.row)
  {
    if s.row.owner.Some? && !MayTake(s.row, token, s.ms) {
      assert FencePasses(s.row, s.row.owner.value, s.ms);
    }
    hide Second;
  }

  lemma {:induction false} LandsWhile(s: System, token: Token, term: nat, from: nat, ms: nat)
    requires Lands(s, token) && s.row == LeaseRow(Some(token), Some(Second(from) + term)) && s.ms <= ms
    ensures Lands(Next(s, Tick(ms), term), token) <==> ms / 1000 <= from / 1000 + term
  {
  }

  /** At any point of any run a fresh token's take succeeds if and only if no
      holder's fence passes; its writes then land until its term is over, to the
      second, whatever the clock reads. */
  lemma {:induction false} LapsedIsTakenOver(db: Db, steps: seq<Step>, term: nat, token: Token, ms: nat)
    requires var s := Trace(Start(db), steps, term); token !in s.asked && s.ms <= ms
    ensures var s := Trace(Start(db), steps, term);
            var e := Next(s, Take(token), term);
            && (Unheld(s) <==> Lands(e, token)) && (!Unheld(s) ==> e.row == s.row)
            && (Unheld(s) ==> (Lands(Next(e, Tick(ms), term), token) <==> ms / 1000 <= s.ms / 1000 + term))
  {
    TraceTermed(Start(db), steps, term);
    var s := Trace(Start(db), steps, term);
    FreshTakes(s, token, term);
    hide Trace, Unheld, Lands, Second;
    if Unheld(s) { LandsWhile(Next(s, Take(token), term), token, term, s.ms, ms); }
  }

  /** A holder that gives the lease back leaves it to the next token that asks. */
  lemma {:induction false} ReleasedIsTaken(s: System, owner: Token, token: Token, term: nat)
    requires s.row.owner == Some(owner) && owner in s.asked && token !in s.asked
    ensures Lands(Next(Next(s, Release(owner), term), Take(token), term), token)
  {
  }
}
