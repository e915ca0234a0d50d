/** One delivery tick as the worker runs it, told apart from its loops: it is a run
    of the outbox's steps, and where it leaves each target (src/events.rs:729-829). */
module Delivery {
  import opened Wrappers
  import J = Journal
  import opened Outbox
  import opened Feed

  // ── Where a tick leaves a target ─────────────────────────────────────────

  /** The first `n` rows were accepted, and the next one, if there is one, was not. */
  ghost predicate Leading(events: seq<J.EventRow>, target: Target, ok: (Target, nat) -> bool, n: nat) {
    && n <= |events|
    && (forall i :: 0 <= i < n ==> ok(target, events[i].cursor))
    && (n < |events| ==> !ok(target, events[n].cursor))
  }

  ghost predicate Same(a: map<Target, nat>, b: map<Target, nat>, x: Target) {
    (x in a <==> x in b) && (x in a ==> a[x] == b[x])
  }

  lemma {:induction false} LeadingFound(events: seq<J.EventRow>, target: Target, ok: (Target, nat) -> bool) returns (n: nat)
    ensures Leading(events, target, ok, n)
  {
    n := 0;
    while n < |events| && ok(target, events[n].cursor)
      invariant n <= |events|
      invariant forall i :: 0 <= i < n ==> ok(target, events[i].cursor)
    {
      n := n + 1;
    }
  }

  lemma {:induction false} LeadingRest(events: seq<J.EventRow>, target: Target, ok: (Target, nat) -> bool, n: nat)
    requires Leading(events, target, ok, n) && 0 < n
    ensures events != [] && ok(target, events[0].cursor) && Leading(events[1..], target, ok, n - 1)
  {
  }

  /** The posts move the cursor to the last row before the first refusal. */
  lemma {:induction false} PostsEnd(stored: map<Target, nat>, target: Target, events: seq<J.EventRow>, ok: (Target, nat) -> bool,
                                    n: nat)
    requires Leading(events, target, ok, n) && J.Ascending(events)
    ensures var p := PostAll(stored, target, events, ok);
            && (n == 0 ==> p == stored)
            && (0 < n ==> target in p)
            && (0 < n && target in stored ==> p[target] == Max(stored[target], events[n - 1].cursor))
            && (0 < n && target !in stored ==> p[target] == events[n - 1].cursor)
    decreases |events|
  {
    if 0 < n {
      LeadingRest(events, target, ok, n);
      AscendingRest(events, n);
      PostsEnd(Upserted(stored, target, events[0].cursor), target, events[1..], ok, n - 1);
      hide Leading, J.Ascending;
    }
  }

  lemma {:induction false} AscendingRest(events: seq<J.EventRow>, n: nat)
    requires J.Ascending(events) && 0 < n <= |events|
    ensures J.Ascending(events[1..]) && events[0].cursor <= events[n - 1].cursor && (1 < n ==> events[1..][n - 2] == events[n - 1])
  {
  }

  /** What the tick finds of a target: where it starts, and that it is behind and
      inside the journal. */
  function From(before: map<Target, nat>, floor: nat, x: Target): nat {
    if x in before then before[x] else floor
  }

  ghost predicate ServedTurn(before: map<Target, nat>, after: map<Target, nat>, x: Target, since: nat, rows: seq<J.EventRow>,
                             budget: nat, ok: (Target, nat) -> bool) {
    exists page: seq<J.EventRow>, n: nat ::
      PageAt(rows, since, budget, page) && Leading(page, x, ok, n)
      && if n == 0 then Same(before, after, x) else x in after && after[x] == page[n - 1].cursor
  }

  lemma {:induction false} PageIs(rows: seq<J.EventRow>, since: nat, budget: nat)
    requires J.Ascending(rows)
    ensures PageAt(rows, since, budget, PageOf(rows, since, budget)) && J.Ascending(PageOf(rows, since, budget))
    ensures forall i :: 0 <= i < |PageOf(rows, since, budget)| ==> since < PageOf(rows, since, budget)[i].cursor
  {
    var k := AboveFrom(rows, since);
    hide J.Keep;
    var m := Min(|rows| - k, budget);
    assert rows[k..][..m] == rows[k..k + m];
  }

  /** The turns of one target in a list that ends at `end`, the rest leaving it. */
  lemma {:induction false} TurnsEnd(stored: map<Target, nat>, t: Tick, found: Target -> seq<J.EventRow>, targets: seq<Target>,
                                    budget: nat, ok: (Target, nat) -> bool, x: Target, n: nat, end: nat)
    requires Behind(t, x) ==> Leading(PageOf(found(x), Since(t, x), budget), x, ok, n)
                              && J.Ascending(PageOf(found(x), Since(t, x), budget))
    requires Behind(t, x) && 0 < n ==> end == PageOf(found(x), Since(t, x), budget)[n - 1].cursor
    requires x in stored ==> stored[x] <= end
    ensures var after := ServeAll(stored, t, found, targets, budget, ok);
            if x in targets && Behind(t, x) && 0 < n then x in after && after[x] == end else Same(stored, after, x)
    decreases |targets|
  {
    hide PageOf, PostAll, Leading, J.Ascending, Since, Behind;
    if targets != [] {
      var y := targets[0];
      var page := PageOf(found(y), Since(t, y), budget);
      var next := if Behind(t, y) then PostAll(stored, y, page, ok) else stored;
      if Behind(t, y) {
        if y == x { PostsEnd(stored, x, page, ok, n); } else { PostAllOther(stored, y, page, ok, x); }
      }
      TurnsEnd(next, t, found, targets[1..], budget, ok, x, n, end);
    }
  }

  lemma {:induction false} FromIs(before: map<Target, nat>, rows: seq<J.EventRow>, floor: nat, x: Target)
    ensures var t := Tick(J.Head(rows), floor, before);
            Since(t, x) == From(before, floor, x) && (Behind(t, x) <==> floor <= From(before, floor, x) < J.Head(rows))
            && (x in before ==> before[x] == From(before, floor, x))
  {
  }

  lemma {:induction false} EndAbove(rows: seq<J.EventRow>, since: nat, budget: nat, n: nat)
    requires J.Ascending(rows) && 0 < n <= |PageOf(rows, since, budget)|
    ensures since < PageOf(rows, since, budget)[n - 1].cursor
  {
    PageIs(rows, since, budget);
  }

  lemma {:induction false} TurnIs(before: map<Target, nat>, after: map<Target, nat>, x: Target, since: nat, rows: seq<J.EventRow>,
                                  budget: nat, ok: (Target, nat) -> bool, n: nat)
    requires J.Ascending(rows) && Leading(PageOf(rows, since, budget), x, ok, n)
    requires n == 0 ==> Same(before, after, x)
    requires 0 < n ==> x in after && after[x] == PageOf(rows, since, budget)[n - 1].cursor
    ensures ServedTurn(before, after, x, since, rows, budget, ok)
  {
    PageIs(rows, since, budget);
    hide PageOf, PageAt, Leading, J.Ascending;
  }

  /** A tick serves the listed targets that stand at or above the floor and below
      the head: each is posted the rows above its cursor in order, up to its page
      or the first refusal, and ends at the last row it accepted. It changes no
      other target. */
  lemma {:induction false} DeliverEnds(before: map<Target, nat>, rows: seq<J.EventRow>, floor: nat, found: Target -> seq<J.EventRow>,
                                       targets: seq<Target>, budget: nat, ok: (Target, nat) -> bool, x: Target)
    requires J.Ascending(found(x))
    ensures var after := ServeAll(before, Tick(J.Head(rows), floor, before), found, targets, budget, ok);
            var since := From(before, floor, x);
            if x in targets && floor <= since < J.Head(rows)
            then ServedTurn(before, after, x, since, found(x), budget, ok) else Same(before, after, x)
  {
    hide *;
    var t := Tick(J.Head(rows), floor, before);
    var since := From(before, floor, x);
    var page := PageOf(found(x), since, budget);
    FromIs(before, rows, floor, x);
    PageIs(found(x), since, budget);
    var n := LeadingFound(page, x, ok);
    LeadingWithin(page, x, ok, n);
    var end := since;
    if 0 < n {
      EndAbove(found(x), since, budget, n);
      end := page[n - 1].cursor;
    }
    TurnsEnd(before, t, found, targets, budget, ok, x, n, end);
    var after := ServeAll(before, t, found, targets, budget, ok);
    if x in targets && Behind(t, x) { TurnIs(before, after, x, since, found(x), budget, ok, n); }
  }

  lemma {:induction false} LeadingWithin(events: seq<J.EventRow>, target: Target, ok: (Target, nat) -> bool, n: nat)
    requires Leading(events, target, ok, n)
    ensures n <= |events|
  {
  }

  /** So every row the journal holds between where a target stood and where the
      tick leaves it was accepted by it. */
  lemma {:induction false} DeliverSkipsNothing(before: map<Target, nat>, rows: seq<J.EventRow>, floor: nat,
                                               found: Target -> seq<J.EventRow>, targets: seq<Target>, budget: nat,
                                               ok: (Target, nat) -> bool, x: Target, r: J.EventRow)
    requires J.Ascending(found(x)) && r in found(x)
    requires var after := ServeAll(before, Tick(J.Head(rows), floor, before), found, targets, budget, ok);
             From(before, floor, x) < r.cursor <= From(after, floor, x)
    ensures ok(x, r.cursor)
  {
    DeliverEnds(before, rows, floor, found, targets, budget, ok, x);
    hide ServeAll, J.Head;
    var after := ServeAll(before, Tick(J.Head(rows), floor, before), found, targets, budget, ok);
    var since := From(before, floor, x);
    assert ServedTurn(before, after, x, since, found(x), budget, ok);
    var page: seq<J.EventRow>, n: nat :| PageAt(found(x), since, budget, page) && Leading(page, x, ok, n)
      && if n == 0 then Same(before, after, x) else x in after && after[x] == page[n - 1].cursor;
    InPage(found(x), since, budget, page, n, r);
  }

  lemma {:induction false} InPage(rows: seq<J.EventRow>, since: nat, budget: nat, page: seq<J.EventRow>, n: nat, r: J.EventRow)
    requires J.Ascending(rows) && PageAt(rows, since, budget, page) && 0 < n <= |page| && r in rows
    requires since < r.cursor <= page[n - 1].cursor
    ensures exists i :: 0 <= i < n && page[i] == r
  {
    var k: nat :| StartsAt(rows, since, k) && |page| == Min(budget, |rows| - k) && page == rows[k..k + |page|];
    var i :| 0 <= i < |rows| && rows[i] == r;
    assert rows[k + n - 1] == page[n - 1];
    assert k <= i <= k + n - 1;
    assert page[i - k] == r;
  }

  // ── The tick is a run of the steps ───────────────────────────────────────

  /** Rows that may be appended one after another. */
  predicate Appendable(all: seq<J.EventRow>, more: seq<J.EventRow>)
    decreases |more|
  {
    more == [] || (J.Head(all) < more[0].cursor && Appendable(all + [more[0]], more[1..]))
  }

  /** What the journal holds at each turn only grows. */
  ghost predicate Growing(all: seq<J.EventRow>, rows: seq<J.EventRow>, t: Tick, found: Target -> seq<J.EventRow>, targets: seq<Target>)
    decreases |targets|
  {
    targets == []
    || if Behind(t, targets[0]) then
         var now := found(targets[0]);
         && |rows| <= |now| && now[..|rows|] == rows && Appendable(all, now[|rows|..])
         && Growing(all + now[|rows|..], now, t, found, targets[1..])
       else Growing(all, rows, t, found, targets[1..])
  }

  function Appends(more: seq<J.EventRow>): seq<Act> {
    if more == [] then [] else [Act.Append(more[0])] + Appends(more[1..])
  }

  /** The posts of a page, up to the first refusal. */
  function Posts(tick: nat, x: Target, events: seq<J.EventRow>, ok: (Target, nat) -> bool): seq<Act> {
    if events == [] then []
    else [Post(tick, x, ok(x, events[0].cursor))] + if ok(x, events[0].cursor) then Posts(tick, x, events[1..], ok) else []
  }

  function TurnActs(tick: nat, t: Tick, held: nat, now: seq<J.EventRow>, x: Target, budget: nat, ok: (Target, nat) -> bool): seq<Act>
    requires held <= |now|
  {
    Appends(now[held..]) + [Fetch(tick, x, budget)] + Posts(tick, x, PageOf(now, Since(t, x), budget), ok)
  }

  ghost function Turns(tick: nat, t: Tick, all: seq<J.EventRow>, rows: seq<J.EventRow>, found: Target -> seq<J.EventRow>,
                       targets: seq<Target>, budget: nat, ok: (Target, nat) -> bool): seq<Act>
    requires Growing(all, rows, t, found, targets)
    decreases |targets|
  {
    if targets == [] then []
    else if Behind(t, targets[0]) then
      var now := found(targets[0]);
      TurnActs(tick, t, |rows|, now, targets[0], budget, ok)
      + Turns(tick, t, all + now[|rows|..], now, found, targets[1..], budget, ok)
    else Turns(tick, t, all, rows, found, targets[1..], budget, ok)
  }

  ghost predicate AllRun(s: State, acts: seq<Act>)
    decreases |acts|
  {
    acts == [] || (Enabled(s, acts[0]) && AllRun(Next(s, acts[0]), acts[1..]))
  }

  /** The acts run one after another and end in `e`. */
  ghost predicate RunsTo(s: State, acts: seq<Act>, e: State) {
    AllRun(s, acts) && Trace(s, acts) == e
  }

  lemma {:induction false} RunsOn(s: State, a: seq<Act>, m: State, b: seq<Act>, e: State)
    requires RunsTo(s, a, m) && RunsTo(m, b, e)
    ensures RunsTo(s, a + b, e)
    decreases |a|
  {
    hide Enabled, Next;
    if a == [] {
      assert a + b == b;
    } else {
      assert (a + b)[0] == a[0] && (a + b)[1..] == a[1..] + b;
      RunsOn(Next(s, a[0]), a[1..], m, b, e);
    }
  }

  lemma {:induction false} RunsOne(s: State, act: Act)
    requires Enabled(s, act)
    ensures RunsTo(s, [act], Next(s, act))
  {
    hide Enabled, Next;
    assert [act][1..] == [];
    assert AllRun(Next(s, act), []) && Trace(Next(s, act), []) == Next(s, act);
  }

  lemma {:induction false} RunsNone(s: State)
    ensures RunsTo(s, [], s)
  {
  }

  lemma {:induction false} RunsCons(s: State, act: Act, rest: seq<Act>, e: State)
    requires Enabled(s, act) && RunsTo(Next(s, act), rest, e)
    ensures RunsTo(s, [act] + rest, e)
  {
    hide *;
    RunsOne(s, act);
    RunsOn(s, [act], Next(s, act), rest, e);
  }

  lemma {:induction false} AppendsRun(s: State, more: seq<J.EventRow>)
    requires Appendable(s.all, more)
    ensures RunsTo(s, Appends(more), s.(rows := s.rows + more, all := s.all + more))
    decreases |more|
  {
    if more == [] {
      assert s.(rows := s.rows + more, all := s.all + more) == s;
    } else {
      var act := Act.Append(more[0]);
      var e := Next(s, act);
      assert e.rows + more[1..] == s.rows + more && e.all + more[1..] == s.all + more;
      hide J.Head, RunsTo;
      AppendsRun(e, more[1..]);
      RunsCons(s, act, Appends(more[1..]), s.(rows := s.rows + more, all := s.all + more));
    }
  }

  /** What a turn of the tick changes. */
  ghost predicate TurnTo(s: State, e: State, tick: nat, rows: seq<J.EventRow>, all: seq<J.EventRow>, stored: map<Target, nat>) {
    && e.rows == rows && e.all == all && e.floor == s.floor && e.ticks == s.ticks && e.stored == stored
    && forall y: Target :: Idle(s, tick, y) ==> Idle(e, tick, y)
  }

  lemma {:induction false} PostsRun(s: State, tick: nat, x: Target, events: seq<J.EventRow>, ok: (Target, nat) -> bool)
    returns (e: State)
    requires tick in s.ticks && (tick, x) in s.jobs
    requires s.jobs[(tick, x)].done <= |s.jobs[(tick, x)].events| && s.jobs[(tick, x)].events[s.jobs[(tick, x)].done..] == events
    ensures RunsTo(s, Posts(tick, x, events, ok), e)
    ensures TurnTo(s, e, tick, s.rows, s.all, PostAll(s.stored, x, events, ok)) && Idle(e, tick, x)
    decreases |events|
  {
    if events == [] {
      e := s;
    } else {
      var job := s.jobs[(tick, x)];
      var answer := ok(x, events[0].cursor);
      var act := Post(tick, x, answer);
      assert job.events[job.done] == events[0];
      var next := Next(s, act);
      if answer {
        assert job.events[job.done + 1..] == events[1..];
        hide RunsTo;
        e := PostsRun(next, tick, x, events[1..], ok);
        RunsCons(s, act, Posts(tick, x, events[1..], ok), e);
      } else {
        e := next;
        RunsOne(s, act);
        assert [act] + [] == [act];
      }
    }
  }

  ghost predicate AllIdle(s: State, tick: nat) {
    forall y: Target :: Idle(s, tick, y)
  }

  lemma {:induction false} FetchRun(s: State, tick: nat, x: Target, budget: nat) returns (e: State)
    requires tick in s.ticks && Idle(s, tick, x) && Behind(s.ticks[tick], x)
    ensures RunsTo(s, [Fetch(tick, x, budget)], e) && (tick, x) in e.jobs
    ensures e == s.(jobs := s.jobs[(tick, x) := Job(Since(s.ticks[tick], x), PageOf(s.rows, Since(s.ticks[tick], x), budget), 0)])
  {
    hide J.Keep, RunsTo, Since, Behind;
    var act := Fetch(tick, x, budget);
    RunsOne(s, act);
    e := Next(s, act);
  }

  lemma {:induction false} TurnRun(s: State, tick: nat, t: Tick, now: seq<J.EventRow>, x: Target, budget: nat,
                                   ok: (Target, nat) -> bool) returns (e: State)
    requires tick in s.ticks && s.ticks[tick] == t && AllIdle(s, tick) && Behind(t, x)
    requires |s.rows| <= |now| && now[..|s.rows|] == s.rows && Appendable(s.all, now[|s.rows|..])
    ensures RunsTo(s, TurnActs(tick, t, |s.rows|, now, x, budget, ok), e) && AllIdle(e, tick)
    ensures TurnTo(s, e, tick, now, s.all + now[|s.rows|..], PostAll(s.stored, x, PageOf(now, Since(t, x), budget), ok))
  {
    hide Since, Behind, PageOf, PostAll, RunsTo, Appendable, Appends, Posts;
    var more := now[|s.rows|..];
    assert s.rows + more == now;
    AppendsRun(s, more);
    var a := s.(rows := now, all := s.all + more);
    assert forall y: Target :: Idle(s, tick, y) ==> Idle(a, tick, y);
    var f := FetchRun(a, tick, x, budget);
    var page := PageOf(now, Since(t, x), budget);
    assert page[0..] == page;
    e := PostsRun(f, tick, x, page, ok);
    RunsOn(s, Appends(more), a, [Fetch(tick, x, budget)], f);
    RunsOn(s, Appends(more) + [Fetch(tick, x, budget)], f, Posts(tick, x, page, ok), e);
    forall y: Target ensures Idle(e, tick, y) {
      if y != x { assert Idle(s, tick, y) && Idle(f, tick, y); }
    }
  }

  lemma {:induction false} TurnsRun(s: State, tick: nat, t: Tick, found: Target -> seq<J.EventRow>, targets: seq<Target>,
                                    budget: nat, ok: (Target, nat) -> bool) returns (e: State)
    requires tick in s.ticks && s.ticks[tick] == t && AllIdle(s, tick) && Growing(s.all, s.rows, t, found, targets)
    ensures RunsTo(s, Turns(tick, t, s.all, s.rows, found, targets, budget, ok), e)
    ensures e.ticks == s.ticks && e.stored == ServeAll(s.stored, t, found, targets, budget, ok)
    decreases |targets|
  {
    if targets == [] {
      RunsNone(s);
      e := s;
    } else if Behind(t, targets[0]) {
      var x := targets[0];
      var now := found(x);
      hide Since, Behind, PageOf, PostAll, RunsTo, Appendable, TurnActs, AllIdle, Idle;
      var mid := TurnRun(s, tick, t, now, x, budget, ok);
      e := TurnsRun(mid, tick, t, found, targets[1..], budget, ok);
      RunsOn(s, TurnActs(tick, t, |s.rows|, now, x, budget, ok), mid,
             Turns(tick, t, s.all + now[|s.rows|..], now, found, targets[1..], budget, ok), e);
    } else {
      hide Since, Behind, PageOf, PostAll, RunsTo, AllIdle;
      e := TurnsRun(s, tick, t, found, targets[1..], budget, ok);
    }
  }

  /** The acts of one tick: its read, each behind target's rows and posts, its end. */
  ghost function TickActs(s: State, tick: nat, found: Target -> seq<J.EventRow>, targets: seq<Target>, budget: nat,
                          ok: (Target, nat) -> bool): seq<Act>
    requires Growing(s.all, s.rows, Tick(J.Head(s.rows), s.floor, s.stored), found, targets)
  {
    var t := Tick(J.Head(s.rows), s.floor, s.stored);
    [Open(tick)] + Turns(tick, t, s.all, s.rows, found, targets, budget, ok) + [Close(tick)]
  }

  lemma {:induction false} OpenRun(s: State, tick: nat) returns (e: State)
    requires tick !in s.ticks && JobsInStep(s)
    ensures RunsTo(s, [Open(tick)], e) && AllIdle(e, tick) && tick in e.ticks
    ensures e == s.(ticks := s.ticks[tick := Tick(J.Head(s.rows), s.floor, s.stored)])
  {
    hide J.Head, RunsTo, InStep;
    RunsOne(s, Open(tick));
    e := Next(s, Open(tick));
  }

  lemma {:induction false} CloseRun(s: State, tick: nat) returns (e: State)
    requires tick in s.ticks
    ensures RunsTo(s, [Close(tick)], e) && e.stored == s.stored
  {
    hide RunsTo;
    RunsOne(s, Close(tick));
    e := Next(s, Close(tick));
  }

  /** Whatever the targets answer, and whatever is appended while it runs, a tick is
      a run of the outbox's steps, each of them enabled, and leaves the cursors the
      worker's loops leave. */
  lemma {:induction false} DeliverIsRun(s: State, tick: nat, found: Target -> seq<J.EventRow>, targets: seq<Target>, budget: nat,
                                        ok: (Target, nat) -> bool)
    requires Sane(s) && tick !in s.ticks
    requires Growing(s.all, s.rows, Tick(J.Head(s.rows), s.floor, s.stored), found, targets)
    ensures var acts := TickActs(s, tick, found, targets, budget, ok);
            && AllRun(s, acts)
            && Trace(s, acts).stored
               == ServeAll(s.stored, Tick(J.Head(s.rows), s.floor, s.stored), found, targets, budget, ok)
  {
    SaneParts(s);
    var t := Tick(J.Head(s.rows), s.floor, s.stored);
    var begun := OpenRun(s, tick);
    hide Sane, J.Head, Growing, ServeAll, Turns, AllIdle, JobsInStep, TicksFresh, Delivered;
    var served := TurnsRun(begun, tick, t, found, targets, budget, ok);
    var e := CloseRun(served, tick);
    RunsOn(s, [Open(tick)], begun, Turns(tick, t, s.all, s.rows, found, targets, budget, ok), served);
    RunsOn(s, [Open(tick)] + Turns(tick, t, s.all, s.rows, found, targets, budget, ok), served, [Close(tick)], e);
  }
}
