/** The read-through's hand-off under one time budget, and the walk that brings a
    pushed header down to a stored row (src/push.rs:165-213, 287-409). */
module HandOver {
  import opened Wrappers
  import opened Headers
  import opened Bulk

  // ── The budget ───────────────────────────────────────────────────────────

  const HAND_OVER_BUDGET_MS: nat := 20_000
  const SEND_TIMEOUT_MS: nat := 5_000

  /** The wait between two asks of a busy door (src/tip_stream.rs:240). */
  const BUSY_WAIT_MS: nat := 2_000

  function Left(now: nat, deadline: nat): nat {
    if deadline < now then 0 else deadline - now
  }

  /** The time a timed send takes: nothing once the budget is spent, at most its
      cut; `answer` is the time its answer would take, if it comes. */
  function SendEnds(now: nat, deadline: nat, answer: Option<nat>): nat {
    var ms := Min(SEND_TIMEOUT_MS, Left(now, deadline));
    now + if answer.Some? && answer.value <= ms then answer.value else ms
  }

  predicate Answers(now: nat, deadline: nat, answer: Option<nat>) {
    0 < Min(SEND_TIMEOUT_MS, Left(now, deadline)) && answer.Some?
    && answer.value <= Min(SEND_TIMEOUT_MS, Left(now, deadline))
  }

  datatype Outcome = Busy | Landed | Dropped

  /** One ask of the door: the sends it makes one after another, and what it
      answers. */
  datatype Ask = Ask(sends: seq<Option<nat>>, outcome: Outcome)

  function AskEnds(now: nat, deadline: nat, sends: seq<Option<nat>>): nat
    decreases |sends|
  {
    if sends == [] then now else AskEnds(SendEnds(now, deadline, sends[0]), deadline, sends[1..])
  }

  /** How a hand-off ends: the clock, the headers landed, the asks made again,
      and every ask's header and answer. */
  datatype Ended = Ended(now: nat, landed: nat, again: nat, log: seq<(nat, Outcome)>)

  /** `hand_over` over a run of `n` headers, the door's answers read from
      `script` (src/push.rs:287-355). */
  function Go(n: nat, tries: nat, script: nat -> Ask, deadline: nat, s: Ended): Ended
    requires s.landed <= n && s.again <= tries
    decreases n - s.landed + (tries - s.again)
  {
    if s.landed == n || Left(s.now, deadline) == 0 then s
    else
      var ask := script(|s.log|);
      var s1 := s.(now := AskEnds(s.now, deadline, ask.sends), log := s.log + [(s.landed, ask.outcome)]);
      match ask.outcome
      case Dropped => s1
      case Landed => Go(n, tries, script, deadline, s1.(landed := s1.landed + 1))
      case Busy =>
        if tries <= s1.again || Left(s1.now, deadline) <= BUSY_WAIT_MS then s1
        else Go(n, tries, script, deadline, s1.(again := s1.again + 1, now := s1.now + BUSY_WAIT_MS))
  }

  function HandOver(n: nat, tries: nat, script: nat -> Ask, start: nat): Ended {
    Go(n, tries, script, start + HAND_OVER_BUDGET_MS, Ended(start, 0, 0, []))
  }

  /** The clock a hand-off runs on. */
  class Clock {
    var now: nat

    constructor (now: nat)
      ensures this.now == now
    {
      this.now := now;
    }

    method Sleep(ms: nat)
      modifies this
      ensures now == old(now) + ms
    {
      now := now + ms;
    }
  }

  /** `Budgeted::timed` (src/push.rs:199-212): the send against a timer. */
  method Timed(clock: Clock, deadline: nat, answer: Option<nat>) returns (answered: bool)
    modifies clock
    ensures clock.now == SendEnds(old(clock.now), deadline, answer)
    ensures answered <==> Answers(old(clock.now), deadline, answer)
  {
    var ms := Min(SEND_TIMEOUT_MS, Left(clock.now, deadline));
    if ms == 0 { return false; }
    if answer.Some? && answer.value <= ms {
      clock.Sleep(answer.value);
      return true;
    }
    clock.Sleep(ms);
    answered := false;
  }

  method AskDoor(clock: Clock, deadline: nat, ask: Ask) returns (outcome: Outcome)
    modifies clock
    ensures clock.now == AskEnds(old(clock.now), deadline, ask.sends) && outcome == ask.outcome
  {
    var i := 0;
    while i < |ask.sends|
      invariant 0 <= i <= |ask.sends|
      invariant AskEnds(old(clock.now), deadline, ask.sends) == AskEnds(clock.now, deadline, ask.sends[i..])
    {
      var answered := Timed(clock, deadline, ask.sends[i]);
      i := i + 1;
    }
    outcome := ask.outcome;
  }

  /** `hand_over`: the loops over the run and its asks. */
  method HandOverRun(clock: Clock, n: nat, tries: nat, script: nat -> Ask) returns (landed: nat, ghost end: Ended)
    modifies clock
    ensures end == HandOver(n, tries, script, old(clock.now)) && clock.now == end.now && landed == end.landed
  {
    var deadline := clock.now + HAND_OVER_BUDGET_MS;
    var asked, again := 0, 0;
    landed := 0;
    ghost var start := Ended(clock.now, 0, 0, []);
    end := start;
    while landed < n
      invariant landed <= n && again <= tries && asked == |end.log|
      invariant end.now == clock.now && end.landed == landed && end.again == again
      invariant Go(n, tries, script, deadline, start) == Go(n, tries, script, deadline, end)
      decreases n - landed + (tries - again)
    {
      if Left(clock.now, deadline) == 0 { return; }
      var outcome := AskDoor(clock, deadline, script(asked));
      end := end.(now := clock.now, log := end.log + [(landed, outcome)]);
      asked := asked + 1;
      match outcome {
        case Dropped => return;
        case Landed =>
          landed := landed + 1;
          end := end.(landed := landed);
        case Busy =>
          if again >= tries { return; }
          if Left(clock.now, deadline) <= BUSY_WAIT_MS { return; }
          again := again + 1;
          clock.Sleep(BUSY_WAIT_MS);
          end := end.(again := again, now := clock.now);
      }
    }
  }

  // ── What the budget keeps ────────────────────────────────────────────────

  lemma {:induction false} AskInTime(now: nat, deadline: nat, sends: seq<Option<nat>>)
    requires now <= deadline
    ensures now <= AskEnds(now, deadline, sends) <= deadline
    decreases |sends|
  {
    if sends != [] {
      AskInTime(SendEnds(now, deadline, sends[0]), deadline, sends[1..]);
    }
  }

  /** The headers that landed, in the order they did. */
  function LandedOf(log: seq<(nat, Outcome)>): seq<nat> {
    if log == [] then []
    else LandedOf(log[..|log| - 1]) + if log[|log| - 1].1.Landed? then [log[|log| - 1].0] else []
  }

  /** The asks made after a busy answer. */
  function BusyOf(log: seq<(nat, Outcome)>): nat {
    if log == [] then 0 else BusyOf(log[..|log| - 1]) + if log[|log| - 1].1.Busy? then 1 else 0
  }

  function UpTo(n: nat): seq<nat> {
    seq(n, i => i)
  }

  ghost predicate Within(n: nat, tries: nat, deadline: nat, s: Ended) {
    && s.now <= deadline && s.landed <= n && s.again <= tries
    && LandedOf(s.log) == UpTo(s.landed) && |s.log| <= s.landed + s.again + 1
    && s.again <= BusyOf(s.log) <= s.again + 1
  }

  lemma {:induction false} LogOneMore(log: seq<(nat, Outcome)>, entry: (nat, Outcome))
    ensures LandedOf(log + [entry]) == LandedOf(log) + if entry.1.Landed? then [entry.0] else []
    ensures BusyOf(log + [entry]) == BusyOf(log) + if entry.1.Busy? then 1 else 0
  {
    assert (log + [entry])[..|log|] == log;
  }

  /** Between asks: every ask before this one landed its header or was followed
      by a wait. */
  ghost predicate Ready(n: nat, tries: nat, deadline: nat, s: Ended) {
    && s.now <= deadline && s.landed <= n && s.again <= tries
    && LandedOf(s.log) == UpTo(s.landed) && |s.log| == s.landed + s.again && BusyOf(s.log) == s.again
  }

  function Asked(script: nat -> Ask, deadline: nat, s: Ended): Ended {
    var ask := script(|s.log|);
    s.(now := AskEnds(s.now, deadline, ask.sends), log := s.log + [(s.landed, ask.outcome)])
  }

  /** The log of one more ask. */
  lemma {:induction false} AskLog(s: Ended, outcome: Outcome)
    requires LandedOf(s.log) == UpTo(s.landed)
    ensures var log := s.log + [(s.landed, outcome)];
            && |log| == |s.log| + 1
            && LandedOf(log) == UpTo(if outcome.Landed? then s.landed + 1 else s.landed)
            && BusyOf(log) == BusyOf(s.log) + if outcome.Busy? then 1 else 0
  {
    LogOneMore(s.log, (s.landed, outcome));
    hide LandedOf, BusyOf;
    assert UpTo(s.landed) + [s.landed] == UpTo(s.landed + 1);
    assert UpTo(s.landed) + [] == UpTo(s.landed);
  }

  /** One ask, whatever it answers. */
  lemma {:induction false} AskKeeps(n: nat, tries: nat, script: nat -> Ask, deadline: nat, s: Ended)
    requires Ready(n, tries, deadline, s) && s.landed < n
    ensures var s1 := Asked(script, deadline, s);
            var outcome := script(|s.log|).outcome;
            && s1.landed == s.landed && s1.again == s.again && s1.now <= deadline
            && (outcome.Landed? ==> Ready(n, tries, deadline, s1.(landed := s1.landed + 1)))
            && (!outcome.Landed? ==> Within(n, tries, deadline, s1))
            && (outcome.Busy? && s1.again < tries && BUSY_WAIT_MS < Left(s1.now, deadline) ==>
                  Ready(n, tries, deadline, s1.(again := s1.again + 1, now := s1.now + BUSY_WAIT_MS)))
  {
    hide LandedOf, BusyOf, AskEnds, UpTo;
    AskInTime(s.now, deadline, script(|s.log|).sends);
    AskLog(s, script(|s.log|).outcome);
  }

  /** One turn of the loop. */
  lemma {:induction false} GoStep(n: nat, tries: nat, script: nat -> Ask, deadline: nat, s: Ended)
    requires s.landed <= n && s.again <= tries
    ensures var s1 := Asked(script, deadline, s);
            Go(n, tries, script, deadline, s) ==
              if s.landed == n || Left(s.now, deadline) == 0 then s
              else match script(|s.log|).outcome
                case Dropped => s1
                case Landed => Go(n, tries, script, deadline, s1.(landed := s1.landed + 1))
                case Busy =>
                  if tries <= s1.again || Left(s1.now, deadline) <= BUSY_WAIT_MS then s1
                  else Go(n, tries, script, deadline, s1.(again := s1.again + 1, now := s1.now + BUSY_WAIT_MS))
  {
    hide AskEnds;
  }

  lemma {:induction false} ReadyIsWithin(n: nat, tries: nat, deadline: nat, s: Ended)
    requires Ready(n, tries, deadline, s)
    ensures Within(n, tries, deadline, s) && s.landed <= n && s.again <= tries
  {
  }

  lemma {:induction false} GoWithin(n: nat, tries: nat, script: nat -> Ask, deadline: nat, s: Ended)
    requires Ready(n, tries, deadline, s) && s.landed <= n && s.again <= tries
    ensures Within(n, tries, deadline, Go(n, tries, script, deadline, s))
    decreases n - s.landed + (tries - s.again)
  {
    hide *;
    GoStep(n, tries, script, deadline, s);
    ReadyIsWithin(n, tries, deadline, s);
    if s.landed < n && Left(s.now, deadline) != 0 {
      AskKeeps(n, tries, script, deadline, s);
      var s1 := Asked(script, deadline, s);
      match script(|s.log|).outcome {
        case Dropped =>
        case Landed =>
          ReadyIsWithin(n, tries, deadline, s1.(landed := s1.landed + 1));
          GoWithin(n, tries, script, deadline, s1.(landed := s1.landed + 1));
        case Busy =>
          if s1.again < tries && BUSY_WAIT_MS < Left(s1.now, deadline) {
            GoWithin(n, tries, script, deadline, s1.(again := s1.again + 1, now := s1.now + BUSY_WAIT_MS));
          }
      }
    }
  }

  /** Whatever the door answers and however long its sends take: the hand-off
      ends inside its budget, asks again at most `tries` times over the whole
      run, makes at most one ask a header more than that, and what landed is a
      prefix of the run, in order. */
  lemma {:induction false} HandOverWithinBudget(n: nat, tries: nat, script: nat -> Ask, start: nat)
    ensures var e := HandOver(n, tries, script, start);
            && e.now <= start + 20000 && e.again <= tries && e.landed <= n
            && LandedOf(e.log) == UpTo(e.landed) && |e.log| <= e.landed + e.again + 1
  {
    assert LandedOf([]) == UpTo(0);
    GoWithin(n, tries, script, start + HAND_OVER_BUDGET_MS, Ended(start, 0, 0, []));
  }

  /** A send is answered if and only if the budget is not spent and its answer
      takes at most 5 s and comes in by the deadline; it takes the answer's time,
      or is given up after 5 s or at the deadline. */
  lemma {:induction false} SendIs(now: nat, deadline: nat, answer: Option<nat>)
    ensures Answers(now, deadline, answer) <==>
              now < deadline && answer.Some? && answer.value <= 5000 && now + answer.value <= deadline
    ensures SendEnds(now, deadline, answer) ==
              if Answers(now, deadline, answer) then now + answer.value
              else if deadline <= now then now else Min(now + 5000, deadline)
  {
  }

  /** Why a hand-off ends: all landed, the budget is spent, the door dropped a
      header, or it was busy with no ask or not more than 2 s left. */
  ghost predicate Stopped(n: nat, tries: nat, deadline: nat, e: Ended) {
    || e.landed == n
    || deadline <= e.now
    || (e.log != [] && e.log[|e.log| - 1].1.Dropped?)
    || (e.log != [] && e.log[|e.log| - 1].1.Busy? && (e.again == tries || deadline <= e.now + 2000))
  }

  /** The answers are the door's, one an ask, and each ask made again waited 2 s. */
  ghost predicate Told(script: nat -> Ask, start: nat, e: Ended) {
    (forall i :: 0 <= i < |e.log| ==> e.log[i].1 == script(i).outcome) && start + 2000 * e.again <= e.now
  }

  lemma {:induction false} AskTold(script: nat -> Ask, start: nat, deadline: nat, s: Ended)
    requires Told(script, start, s) && s.now <= deadline
    ensures var s1 := Asked(script, deadline, s);
            && s1.log != [] && s1.log[|s1.log| - 1].1 == script(|s.log|).outcome && Told(script, start, s1)
            && Told(script, start, s1.(landed := s1.landed + 1))
            && Told(script, start, s1.(again := s1.again + 1, now := s1.now + 2000))
  {
    AskInTime(s.now, deadline, script(|s.log|).sends);
    hide AskEnds;
  }

  lemma {:induction false} StepStops(n: nat, tries: nat, script: nat -> Ask, deadline: nat, s: Ended)
    requires s.landed <= n && s.again <= tries && s.now <= deadline
    ensures s.landed == n || Left(s.now, deadline) == 0 ==> Stopped(n, tries, deadline, s)
    ensures var s1 := Asked(script, deadline, s);
            s1.log != [] && s1.log[|s1.log| - 1].1 == script(|s.log|).outcome && s1.again == s.again
    ensures var s1 := Asked(script, deadline, s);
            && (script(|s.log|).outcome.Dropped? ==> Stopped(n, tries, deadline, s1))
            && (script(|s.log|).outcome.Busy? && (tries <= s1.again || Left(s1.now, deadline) <= BUSY_WAIT_MS) ==>
                  Stopped(n, tries, deadline, s1))
  {
    hide AskEnds;
  }

  lemma {:induction false} GoStops(n: nat, tries: nat, script: nat -> Ask, deadline: nat, start: nat, s: Ended)
    requires Ready(n, tries, deadline, s) && s.landed <= n && s.again <= tries && s.now <= deadline
    requires Told(script, start, s)
    ensures var e := Go(n, tries, script, deadline, s);
            Stopped(n, tries, deadline, e) && Told(script, start, e)
    decreases n - s.landed + (tries - s.again)
  {
    hide *;
    GoStep(n, tries, script, deadline, s);
    StepStops(n, tries, script, deadline, s);
    if s.landed < n && Left(s.now, deadline) != 0 {
      AskKeeps(n, tries, script, deadline, s);
      AskTold(script, start, deadline, s);
      WaitIs();
      var s1 := Asked(script, deadline, s);
      match script(|s.log|).outcome {
        case Dropped =>
        case Landed =>
          var next := s1.(landed := s1.landed + 1);
          ReadyIsWithin(n, tries, deadline, next);
          ReadyInTime(n, tries, deadline, next);
          GoStops(n, tries, script, deadline, start, next);
        case Busy =>
          if s1.again < tries && BUSY_WAIT_MS < Left(s1.now, deadline) {
            var next := s1.(again := s1.again + 1, now := s1.now + BUSY_WAIT_MS);
            ReadyInTime(n, tries, deadline, next);
            GoStops(n, tries, script, deadline, start, next);
          }
      }
    }
  }

  lemma {:induction false} WaitIs()
    ensures BUSY_WAIT_MS == 2000
  {
  }

  lemma {:induction false} ReadyInTime(n: nat, tries: nat, deadline: nat, s: Ended)
    requires Ready(n, tries, deadline, s)
    ensures s.now <= deadline && s.landed <= n && s.again <= tries
  {
  }

  /** A hand-off goes on until all has landed, its 20 s are spent, the door drops a
      header, or it is still busy when its asks or its time are used up; every ask
      is answered as the door answers it, and every repeat waits 2 s. */
  lemma {:induction false} HandOverStops(n: nat, tries: nat, script: nat -> Ask, start: nat)
    ensures var e := HandOver(n, tries, script, start);
            Stopped(n, tries, start + 20000, e) && Told(script, start, e)
  {
    assert LandedOf([]) == UpTo(0);
    GoStops(n, tries, script, start + HAND_OVER_BUDGET_MS, start, Ended(start, 0, 0, []));
  }

  // ── The parent walk ──────────────────────────────────────────────────────

  /** The most ancestors one push may fetch (src/push.rs:31). */
  const PARENT_WALK_LIMIT := 36

  datatype Walked = Stands(run: seq<Header>) | TooDeep(missing: Hash) | ParentMissing(missing: Hash)

  /** A run stops at a header whose parent is stored or none. */
  predicate Rooted(stored: set<Hash>, h: Header) {
    h.prev == ZERO_HASH || h.prev in stored
  }

  /** The ancestors fetched one by one below `run[0]`, oldest first
      (src/push.rs:370-400). */
  function WalkFrom(stored: set<Hash>, source: Hash -> Option<Header>, run: seq<Header>): Walked
    requires run != [] && |run| <= PARENT_WALK_LIMIT + 1
    decreases PARENT_WALK_LIMIT + 1 - |run|
  {
    if Rooted(stored, run[0]) then Stands(run)
    else if PARENT_WALK_LIMIT < |run| then TooDeep(run[0].prev)
    else
      match source(run[0].prev)
      case None => ParentMissing(run[0].prev)
      case Some(parent) => WalkFrom(stored, source, [parent] + run)
  }

  method ParentWalk(stored: set<Hash>, source: Hash -> Option<Header>, header: Header) returns (r: Walked)
    ensures r == WalkFrom(stored, source, [header])
    ensures r.Stands? ==> 1 <= |r.run| <= PARENT_WALK_LIMIT + 1 && r.run[|r.run| - 1] == header
                          && Rooted(stored, r.run[0])
  {
    var run := [header];
    while true
      invariant 1 <= |run| <= PARENT_WALK_LIMIT + 1 && run[|run| - 1] == header
      invariant WalkFrom(stored, source, [header]) == WalkFrom(stored, source, run)
      decreases PARENT_WALK_LIMIT + 1 - |run|
    {
      var want := run[0].prev;
      if want == ZERO_HASH || want in stored { return Stands(run); }
      if |run| > PARENT_WALK_LIMIT { return TooDeep(want); }
      match source(want) {
        case None => return ParentMissing(want);
        case Some(parent) => run := [parent] + run;
      }
    }
  }

  /** Each row fetched as the parent the next one names, none but the oldest
      rooted: the shortest run down to a stored row. */
  ghost predicate Shortest(stored: set<Hash>, source: Hash -> Option<Header>, run: seq<Header>) {
    && (forall i :: 0 <= i && i + 1 < |run| ==> source(run[i + 1].prev) == Some(run[i]))
    && (forall i :: 0 < i < |run| ==> !Rooted(stored, run[i]))
  }

  lemma {:induction false} WalkShortest(stored: set<Hash>, source: Hash -> Option<Header>, run: seq<Header>)
    requires run != [] && |run| <= PARENT_WALK_LIMIT + 1 && Shortest(stored, source, run)
    ensures var r := WalkFrom(stored, source, run);
            r.Stands? ==> Shortest(stored, source, r.run) && r.run != [] && Rooted(stored, r.run[0])
    decreases PARENT_WALK_LIMIT + 1 - |run|
  {
    if !Rooted(stored, run[0]) && |run| <= PARENT_WALK_LIMIT && source(run[0].prev).Some? {
      WalkShortest(stored, source, [source(run[0].prev).value] + run);
    }
  }

  /** The walk finds the run whenever one of at most 36 ancestors exists. */
  lemma {:induction false} WalkFinds(stored: set<Hash>, source: Hash -> Option<Header>, run: seq<Header>, k: nat)
    requires run != [] && k < |run| <= 37
    requires Shortest(stored, source, run) && Rooted(stored, run[0])
    ensures WalkFrom(stored, source, run[k..]) == Stands(run)
    decreases k
  {
    if k == 0 {
      assert run[0..] == run;
    } else {
      assert source(run[k - 1 + 1].prev) == Some(run[k - 1]);
      assert run[k..][0] == run[k];
      assert [run[k - 1]] + run[k..] == run[k - 1..];
      WalkFinds(stored, source, run, k - 1);
    }
  }

  /** What the walk answers, on the rows `chain` it fetched: the run down to the
      first rooted row; too deep once 36 ancestors are fetched and the oldest row is
      still not rooted; or the parent no courier has. */
  ghost predicate WalkedOver(stored: set<Hash>, source: Hash -> Option<Header>, chain: seq<Header>, r: Walked) {
    chain != [] && Shortest(stored, source, chain)
    && match r
       case Stands(run) => run == chain && |chain| <= 37 && Rooted(stored, chain[0])
       case TooDeep(missing) => |chain| == 37 && !Rooted(stored, chain[0]) && missing == chain[0].prev
       case ParentMissing(missing) =>
         |chain| <= 36 && !Rooted(stored, chain[0]) && missing == chain[0].prev && source(missing).None?
  }

  lemma {:induction false} WalkExact(stored: set<Hash>, source: Hash -> Option<Header>, run: seq<Header>) returns (chain: seq<Header>)
    requires run != [] && |run| <= 37 && Shortest(stored, source, run)
    ensures WalkedOver(stored, source, chain, WalkFrom(stored, source, run))
    ensures |run| <= |chain| && chain[|chain| - |run|..] == run
    decreases 37 - |run|
  {
    chain := run;
    if !Rooted(stored, run[0]) && |run| <= 36 && source(run[0].prev).Some? {
      var more := [source(run[0].prev).value] + run;
      chain := WalkExact(stored, source, more);
      assert chain[|chain| - |run|..] == chain[|chain| - |more|..][1..];
    }
  }

  /** The walk from a pushed header. */
  lemma {:induction false} PushedWalk(stored: set<Hash>, source: Hash -> Option<Header>, header: Header) returns (chain: seq<Header>)
    ensures WalkedOver(stored, source, chain, WalkFrom(stored, source, [header])) && chain != []
    ensures chain[|chain| - 1] == header
  {
    chain := WalkExact(stored, source, [header]);
    assert chain[|chain| - 1..] == [header];
  }

  /** Couriers that answer with the header asked for, at its true height: the
      run is the linked run the writers ask for. */
  lemma {:induction false} HonestRunIsLinked(stored: set<Hash>, source: Hash -> Option<Header>, all: iset<Header>, run: seq<Header>)
    requires Agree(all) && AllIn(all, run) && Shortest(stored, source, run)
    requires forall x: Hash :: source(x).Some? ==> source(x).value.hash == x
    ensures Linked(run)
  {
    forall i | 0 <= i && i + 1 < |run|
      ensures run[i + 1].height == run[i].height + 1 && run[i + 1].prev == run[i].hash
    {
      assert run[i] in all && run[i + 1] in all;
    }
  }
}
