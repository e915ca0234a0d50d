/** The webhook outbox over the journal: overlapping delivery ticks, each target
    posted in order and stopped at a refusal (src/events.rs:685-829). */
module Outbox {
  import opened Wrappers
  import opened Journal

  type Target = nat

  /** One target's work in a tick: where it started, the rows it read, and how
      many of them it is done with. */
  datatype Job = Job(since: nat, events: seq<EventRow>, done: nat)

  /** What a tick read when it opened (`SQL_OUTBOX`). */
  datatype Tick = Tick(head: nat, floor: nat, stored: map<Target, nat>)

  /** `stored` are the delivery cursors, `starts` where each target's deliveries
      began, `accepted` the cursors each target answered with a 2xx. */
  datatype State = State(rows: seq<EventRow>, floor: nat, all: seq<EventRow>,
                         stored: map<Target, nat>, starts: map<Target, nat>, accepted: set<(Target, nat)>,
                         ticks: map<nat, Tick>, jobs: map<(nat, Target), Job>)

  datatype Act =
    | Append(row: EventRow)
    | Retain(read: nat, now: nat)
    | Open(tick: nat)
    | Fetch(tick: nat, target: Target, budget: nat)
    | Post(tick: nat, target: Target, ok: bool)
    | Close(tick: nat)

  function Since(t: Tick, target: Target): nat {
    if target in t.stored then t.stored[target] else t.floor
  }

  /** The target is behind and inside the journal (src/events.rs:801-816). */
  predicate Behind(t: Tick, target: Target) {
    t.floor <= Since(t, target) < t.head
  }

  /** The tick is not at work for the target. */
  predicate Idle(s: State, tick: nat, target: Target) {
    (tick, target) in s.jobs ==> s.jobs[(tick, target)].done == |s.jobs[(tick, target)].events|
  }

  predicate Enabled(s: State, act: Act) {
    match act
    case Append(row) => Head(s.all) < row.cursor
    case Retain(read, _) => read <= s.floor && s.ticks == map[]
    case Open(tick) => tick !in s.ticks
    case Fetch(tick, target, _) => tick in s.ticks && Idle(s, tick, target) && Behind(s.ticks[tick], target)
    case Post(tick, target, _) =>
      tick in s.ticks && (tick, target) in s.jobs && s.jobs[(tick, target)].done < |s.jobs[(tick, target)].events|
    case Close(tick) => tick in s.ticks
  }

  /** The upsert of an accepted row: the cursor never moves back. */
  function Upserted(stored: map<Target, nat>, target: Target, cursor: nat): map<Target, nat> {
    stored[target := if target in stored then Max(stored[target], cursor) else cursor]
  }

  function Next(s: State, act: Act): State
    requires Enabled(s, act)
  {
    match act
    case Append(row) => s.(rows := s.rows + [row], all := s.all + [row])
    case Retain(read, now) =>
      var picked := TickPicks(s.rows, read, now);
      s.(floor := Max(s.floor, ChainTop(picked)), rows := Keep(s.rows, (r: EventRow) => r !in picked))
    case Open(tick) => s.(ticks := s.ticks[tick := Tick(Head(s.rows), s.floor, s.stored)])
    case Fetch(tick, target, budget) =>
      var since := Since(s.ticks[tick], target);
      var above := Keep(s.rows, (r: EventRow) => since < r.cursor);
      s.(jobs := s.jobs[(tick, target) := Job(since, above[..Min(|above|, budget)], 0)])
    case Post(tick, target, ok) =>
      var job := s.jobs[(tick, target)];
      if ok then
        s.(stored := Upserted(s.stored, target, job.events[job.done].cursor),
           starts := if target in s.starts then s.starts else s.starts[target := job.since],
           accepted := s.accepted + {(target, job.events[job.done].cursor)},
           jobs := s.jobs[(tick, target) := job.(done := job.done + 1)])
      else s.(jobs := s.jobs[(tick, target) := job.(done := |job.events|)])
    case Close(tick) => s.(ticks := map t | t in s.ticks && t != tick :: s.ticks[t],
                           jobs := map k | k in s.jobs && k.0 != tick :: s.jobs[k])
  }

  function Trace(s: State, acts: seq<Act>): State
    decreases |acts|
  {
    if acts == [] then s
    else if Enabled(s, acts[0]) then Trace(Next(s, acts[0]), acts[1..])
    else Trace(s, acts[1..])
  }

  // ── What every act keeps ─────────────────────────────────────────────────

  function JournalOf(s: State): System {
    System(s.rows, s.floor, s.all, map[], Client(0, 0, [], None))
  }

  /** Every stored row and every chain row ever appended in `(lo, hi]` was
      accepted by the target. */
  ghost predicate AcceptedBetween(s: State, target: Target, lo: nat, hi: nat) {
    forall r :: (r in s.rows || (r in s.all && r.kind.Chain?)) && lo < r.cursor <= hi ==> (target, r.cursor) in s.accepted
  }

  /** The delivered targets: a start, a cursor inside the journal, and all
      between accepted. */
  ghost predicate Delivered(s: State) {
    && s.stored.Keys == s.starts.Keys
    && forall t :: t in s.stored ==>
         s.starts[t] <= s.stored[t] <= Head(s.all) && AcceptedBetween(s, t, s.starts[t], s.stored[t])
  }

  /** An open tick's snapshot: the floor is the journal's, its cursors are at
      most the stored ones. */
  ghost predicate Fresh(s: State, t: Tick) {
    && t.floor == s.floor && t.head <= Head(s.all)
    && (forall x :: x in t.stored ==> x in s.stored && x in s.starts && s.starts[x] <= t.stored[x] <= s.stored[x])
    && (forall x :: x in s.starts && x !in t.stored ==> s.starts[x] == t.floor)
  }

  /** A job's rows are the stored rows above where it started, up to its last;
      those done with, when one is still to post, were accepted. */
  ghost predicate InStep(s: State, target: Target, t: Tick, job: Job) {
    && job.since == Since(t, target) && job.done <= |job.events| && Ascending(job.events)
    && (forall i :: 0 <= i < |job.events| ==> job.events[i] in s.rows && job.since < job.events[i].cursor)
    && (forall r, i :: r in s.rows && 0 <= i < |job.events| && job.since < r.cursor <= job.events[i].cursor ==> r in job.events)
    && (forall i :: 0 <= i < job.done && job.done < |job.events| ==> (target, job.events[i].cursor) in s.accepted)
  }

  ghost predicate TicksFresh(s: State) {
    forall k :: k in s.ticks ==> Fresh(s, s.ticks[k])
  }

  ghost predicate JobsInStep(s: State) {
    forall k :: k in s.jobs ==> k.0 in s.ticks && s.floor <= s.jobs[k].since && InStep(s, k.1, s.ticks[k.0], s.jobs[k])
  }

  ghost predicate Sane(s: State) {
    Whole(JournalOf(s)) && Delivered(s) && TicksFresh(s) && JobsInStep(s)
  }

  // ── Appending and retaining ──────────────────────────────────────────────

  /** The stored rows change; what was accepted of them stays accepted. */
  lemma {:induction false} DeliveredStays(s: State, e: State)
    requires Delivered(s) && e.stored == s.stored && e.starts == s.starts && e.accepted == s.accepted
    requires Head(s.all) <= Head(e.all)
    requires forall r :: r in e.rows && r.cursor <= Head(s.all) ==> r in s.rows
    requires forall r :: r in e.all && r.cursor <= Head(s.all) ==> r in s.all
    ensures Delivered(e)
  {
    hide Head;
    forall t | t in e.stored ensures AcceptedBetween(e, t, e.starts[t], e.stored[t]) {
      assert AcceptedBetween(s, t, s.starts[t], s.stored[t]);
    }
  }

  lemma {:induction false} SaneIs(e: State)
    requires Whole(JournalOf(e)) && Delivered(e) && TicksFresh(e) && JobsInStep(e)
    ensures Sane(e)
  {
  }

  lemma {:induction false} SaneParts(s: State)
    requires Sane(s)
    ensures Whole(JournalOf(s)) && Delivered(s) && TicksFresh(s) && JobsInStep(s)
  {
  }

  lemma {:induction false} AppendSane(s: State, row: EventRow)
    requires Sane(s) && Enabled(s, Act.Append(row))
    ensures Sane(Next(s, Act.Append(row)))
  {
    hide Whole, Delivered, Head, Sane, TicksFresh, JobsInStep;
    SaneParts(s);
    AppendedStore(s, row);
    AppendTicks(s, row);
    AppendJobs(s, row);
    SaneIs(s.(rows := s.rows + [row], all := s.all + [row]));
  }

  lemma {:induction false} AppendTicks(s: State, row: EventRow)
    requires Sane(s) && Head(s.all) < row.cursor
    ensures var e := s.(rows := s.rows + [row], all := s.all + [row]);
            TicksFresh(e)
  {
    hide Whole, Delivered, Head, Fresh, InStep;
    var e := s.(rows := s.rows + [row], all := s.all + [row]);
    forall k | k in e.ticks ensures Fresh(e, e.ticks[k]) { AppendFresh(s, e, row, s.ticks[k]); }
  }

  lemma {:induction false} AppendJobs(s: State, row: EventRow)
    requires Sane(s) && Head(s.all) < row.cursor
    ensures var e := s.(rows := s.rows + [row], all := s.all + [row]);
            JobsInStep(e)
  {
    RowsAscending(JournalOf(s));
    hide Whole, Delivered, Head, Fresh, InStep, Ascending;
    var e := s.(rows := s.rows + [row], all := s.all + [row]);
    forall k | k in e.jobs ensures InStep(e, k.1, e.ticks[k.0], e.jobs[k]) {
      AppendInStep(s, e, row, k.1, s.ticks[k.0], s.jobs[k]);
    }
  }

  lemma {:induction false} AppendFresh(s: State, e: State, row: EventRow, t: Tick)
    requires Fresh(s, t) && e.all == s.all + [row] && Head(s.all) < row.cursor && e.floor == s.floor
    requires e.stored == s.stored && e.starts == s.starts
    ensures Fresh(e, t)
  {
  }

  lemma {:induction false} AppendedStore(s: State, row: EventRow)
    requires Whole(JournalOf(s)) && Delivered(s) && Head(s.all) < row.cursor
    ensures var e := s.(rows := s.rows + [row], all := s.all + [row]); Whole(JournalOf(e)) && Delivered(e)
  {
    var e := s.(rows := s.rows + [row], all := s.all + [row]);
    hide WholeRows, Ascending;
    AppendedWhole(s.all, s.rows, s.floor, row);
    DeliveredStays(s, e);
  }

  lemma {:induction false} AppendInStep(s: State, e: State, row: EventRow, target: Target, t: Tick, job: Job)
    requires InStep(s, target, t, job) && e.rows == s.rows + [row] && e.accepted == s.accepted
    requires Ascending(s.rows) && Head(s.rows) < row.cursor
    ensures InStep(e, target, t, job)
  {
    forall r, i | r in e.rows && 0 <= i < |job.events| && job.since < r.cursor <= job.events[i].cursor
      ensures r in job.events
    {
      CursorBelowHead(s.rows, job.events[i]);
    }
  }

  lemma {:induction false} RetainSane(s: State, read: nat, now: nat)
    requires Sane(s) && Enabled(s, Act.Retain(read, now))
    ensures Sane(Next(s, Act.Retain(read, now)))
  {
    var e := Next(s, Act.Retain(read, now));
    var j := JournalOf(s).(ticks := map[0 := read]);
    assert Whole(j);
    RetainKeeps(j, 0, now);
    RowsAscending(j);
    WholeOf(Journal.Next(j, Journal.Retain(0, now)), JournalOf(e));
    KeepIn(s.rows, (r: EventRow) => r !in TickPicks(s.rows, read, now));
    hide Whole, TickPicks, Keep, ChainTop;
    DeliveredStays(s, e);
    assert forall k :: k in s.jobs ==> k.0 in s.ticks;
  }

  lemma {:induction false} WholeOf(a: System, b: System)
    requires Whole(a) && a.rows == b.rows && a.floor == b.floor && a.all == b.all
    ensures Whole(b)
  {
  }

  // ── Ticks and fetches ────────────────────────────────────────────────────

  /** Nothing but ticks and jobs differs. */
  ghost predicate SameStore(s: State, e: State) {
    && e.rows == s.rows && e.floor == s.floor && e.all == s.all
    && e.stored == s.stored && e.starts == s.starts && e.accepted == s.accepted
  }

  lemma {:induction false} StoreFrame(s: State, e: State)
    requires SameStore(s, e) && Whole(JournalOf(s)) && Delivered(s)
    ensures Whole(JournalOf(e)) && Delivered(e)
  {
    hide Whole, Head;
    DeliveredStays(s, e);
  }

  lemma {:induction false} TickFrame(s: State, e: State, t: Tick)
    requires SameStore(s, e) && Fresh(s, t)
    ensures Fresh(e, t)
  {
  }

  lemma {:induction false} JobFrame(s: State, e: State, target: Target, t: Tick, job: Job)
    requires e.rows == s.rows && s.accepted <= e.accepted && InStep(s, target, t, job)
    ensures InStep(e, target, t, job)
  {
  }

  /** One job set. */
  lemma {:induction false} JobSane(s: State, e: State, k: (nat, Target), job: Job)
    requires Sane(s) && e == s.(jobs := s.jobs[k := job]) && k.0 in s.ticks && s.floor <= job.since
    requires InStep(s, k.1, s.ticks[k.0], job)
    ensures Sane(e)
  {
    hide Whole, Delivered, Fresh, InStep;
    StoreFrame(s, e);
    forall x | x in e.ticks ensures Fresh(e, e.ticks[x]) { TickFrame(s, e, s.ticks[x]); }
    forall x | x in e.jobs ensures InStep(e, x.1, e.ticks[x.0], e.jobs[x]) {
      JobFrame(s, e, x.1, s.ticks[x.0], e.jobs[x]);
    }
  }

  lemma {:induction false} OpenSane(s: State, tick: nat)
    requires Sane(s) && Enabled(s, Open(tick))
    ensures Sane(Next(s, Open(tick)))
  {
    var e := Next(s, Open(tick));
    hide Whole, Delivered, Head, Sane, TicksFresh, JobsInStep, Fresh;
    SaneParts(s);
    OpenedFresh(s);
    StoreFrame(s, e);
    OpenedTicks(s, e, tick);
    OpenedJobs(s, e, tick);
    SaneIs(e);
  }

  lemma {:induction false} OpenedTicks(s: State, e: State, tick: nat)
    requires TicksFresh(s) && SameStore(s, e) && Fresh(s, Tick(Head(s.rows), s.floor, s.stored))
    requires e.ticks == s.ticks[tick := Tick(Head(s.rows), s.floor, s.stored)]
    ensures TicksFresh(e)
  {
    hide Fresh, Head;
    forall x | x in e.ticks ensures Fresh(e, e.ticks[x]) { TickFrame(s, e, e.ticks[x]); }
  }

  lemma {:induction false} OpenedJobs(s: State, e: State, tick: nat)
    requires JobsInStep(s) && SameStore(s, e) && tick !in s.ticks && e.jobs == s.jobs
    requires e.ticks == s.ticks[tick := Tick(Head(s.rows), s.floor, s.stored)]
    ensures JobsInStep(e)
  {
    hide InStep, Head;
    forall x | x in e.jobs ensures InStep(e, x.1, e.ticks[x.0], e.jobs[x]) {
      JobFrame(s, e, x.1, s.ticks[x.0], s.jobs[x]);
    }
  }

  lemma {:induction false} OpenedFresh(s: State)
    requires Sane(s)
    ensures Fresh(s, Tick(Head(s.rows), s.floor, s.stored))
  {
    RowsAscending(JournalOf(s));
    hide Whole, Head, InStep, AcceptedBetween;
  }

  lemma {:induction false} CloseSane(s: State, tick: nat)
    requires Sane(s) && Enabled(s, Close(tick))
    ensures Sane(Next(s, Close(tick)))
  {
    var e := Next(s, Close(tick));
    hide Whole, Delivered, Sane, TicksFresh, JobsInStep;
    SaneParts(s);
    StoreFrame(s, e);
    ClosedTicks(s, e, tick);
    ClosedJobs(s, e, tick);
    SaneIs(e);
  }

  lemma {:induction false} ClosedTicks(s: State, e: State, tick: nat)
    requires TicksFresh(s) && SameStore(s, e) && e.ticks == map t | t in s.ticks && t != tick :: s.ticks[t]
    ensures TicksFresh(e)
  {
    hide Fresh;
    forall x | x in e.ticks ensures Fresh(e, e.ticks[x]) { TickFrame(s, e, s.ticks[x]); }
  }

  lemma {:induction false} ClosedJobs(s: State, e: State, tick: nat)
    requires JobsInStep(s) && SameStore(s, e) && e.ticks == map t | t in s.ticks && t != tick :: s.ticks[t]
    requires e.jobs == map k | k in s.jobs && k.0 != tick :: s.jobs[k]
    ensures JobsInStep(e)
  {
    hide InStep;
    forall x | x in e.jobs ensures InStep(e, x.1, e.ticks[x.0], e.jobs[x]) {
      JobFrame(s, e, x.1, s.ticks[x.0], s.jobs[x]);
    }
  }

  lemma {:induction false} FetchedInStep(s: State, target: Target, t: Tick, budget: nat)
    requires Whole(JournalOf(s))
    ensures var since := Since(t, target);
            var above := Keep(s.rows, (r: EventRow) => since < r.cursor);
            InStep(s, target, t, Job(since, above[..Min(|above|, budget)], 0))
  {
    var since := Since(t, target);
    var above := Keep(s.rows, (r: EventRow) => since < r.cursor);
    RowsAscending(JournalOf(s));
    KeepIn(s.rows, (r: EventRow) => since < r.cursor);
    KeepAscending(s.rows, (r: EventRow) => since < r.cursor);
    hide Keep, Whole, Since;
    PrefixInStep(s, target, t, above, since, Min(|above|, budget));
  }

  lemma {:induction false} PrefixInStep(s: State, target: Target, t: Tick, above: seq<EventRow>, since: nat, n: nat)
    requires Ascending(above) && n <= |above| && since == Since(t, target)
    requires forall x :: x in above <==> x in s.rows && since < x.cursor
    ensures InStep(s, target, t, Job(since, above[..n], 0))
  {
    hide Since;
    var events := above[..n];
    forall i | 0 <= i < |events| ensures events[i] in s.rows && since < events[i].cursor {
      assert events[i] == above[i] && above[i] in above;
    }
    forall r, i | r in s.rows && 0 <= i < |events| && since < r.cursor <= events[i].cursor ensures r in events {
      assert r in above;
      var j :| 0 <= j < |above| && above[j] == r;
      assert events[i] == above[i] && j <= i;
      assert events[j] == r;
    }
  }

  lemma {:induction false} FetchSane(s: State, tick: nat, target: Target, budget: nat)
    requires Sane(s) && Enabled(s, Fetch(tick, target, budget))
    ensures Sane(Next(s, Fetch(tick, target, budget)))
  {
    var e := Next(s, Fetch(tick, target, budget));
    assert Fresh(s, s.ticks[tick]);
    FetchedInStep(s, target, s.ticks[tick], budget);
    hide Whole, Sane, InStep, Keep;
    JobSane(s, e, (tick, target), e.jobs[(tick, target)]);
  }

  // ── Posts ────────────────────────────────────────────────────────────────

  lemma {:induction false} RefusedSane(s: State, tick: nat, target: Target)
    requires Sane(s) && Enabled(s, Post(tick, target, false))
    ensures Sane(Next(s, Post(tick, target, false)))
  {
    var e := Next(s, Post(tick, target, false));
    var k := (tick, target);
    assert InStep(s, k.1, s.ticks[k.0], s.jobs[k]);
    EndedInStep(s, target, s.ticks[tick], s.jobs[k]);
    hide Whole, Sane, InStep;
    JobSane(s, e, k, e.jobs[k]);
  }

  lemma {:induction false} EndedInStep(s: State, target: Target, t: Tick, job: Job)
    requires InStep(s, target, t, job)
    ensures InStep(s, target, t, job.(done := |job.events|))
  {
  }

  /** Every row between where the job started and the row it posts is accepted. */
  lemma {:induction false} PostedBetween(s: State, target: Target, t: Tick, job: Job, hi: nat)
    requires Whole(JournalOf(s)) && InStep(s, target, t, job) && job.done < |job.events| && s.floor <= job.since
    requires hi == job.events[job.done].cursor
    ensures AcceptedBetween(s.(accepted := s.accepted + {(target, hi)}), target, job.since, hi)
  {
    var e := s.(accepted := s.accepted + {(target, hi)});
    forall r | (r in s.rows || (r in s.all && r.kind.Chain?)) && job.since < r.cursor <= hi
      ensures (target, r.cursor) in e.accepted
    {
      assert r in s.rows;
      assert r in job.events;
      var j :| 0 <= j < |job.events| && job.events[j] == r;
      assert j <= job.done;
    }
  }

  lemma {:induction false} AcceptedJoin(s: State, target: Target, lo: nat, mid: nat, from: nat, hi: nat)
    requires AcceptedBetween(s, target, lo, mid) && AcceptedBetween(s, target, from, hi) && from <= mid
    ensures AcceptedBetween(s, target, lo, Max(mid, hi))
  {
  }

  /** The facts a job that posts rests on. */
  lemma {:induction false} PostingFacts(s: State, tick: nat, target: Target)
    requires Sane(s) && Enabled(s, Post(tick, target, true))
    ensures var t := s.ticks[tick];
            var job := s.jobs[(tick, target)];
            var hi := job.events[job.done].cursor;
            && Whole(JournalOf(s)) && Delivered(s) && Fresh(s, t) && InStep(s, target, t, job)
            && s.floor <= job.since < hi <= Head(s.all) && job.since == Since(t, target)
            && AcceptedBetween(s.(accepted := s.accepted + {(target, hi)}), target, job.since, hi)
  {
    var t := s.ticks[tick];
    var job := s.jobs[(tick, target)];
    assert InStep(s, target, t, job) && Fresh(s, t);
    RowsAscending(JournalOf(s));
    CursorBelowHead(s.rows, job.events[job.done]);
    PostedBetween(s, target, t, job, job.events[job.done].cursor);
  }

  /** The journal and what is accepted, with one row more accepted. */
  lemma {:induction false} MoreAccepted(s: State, e: State, target: Target, lo: nat, hi: nat)
    requires e.rows == s.rows && e.all == s.all && s.accepted <= e.accepted && AcceptedBetween(s, target, lo, hi)
    ensures AcceptedBetween(e, target, lo, hi)
  {
  }

  lemma {:induction false} PostDelivered(s: State, e: State, target: Target, since: nat, hi: nat)
    requires Delivered(s) && e.rows == s.rows && e.all == s.all && s.accepted <= e.accepted
    requires e.stored == Upserted(s.stored, target, hi)
    requires e.starts == if target in s.starts then s.starts else s.starts[target := since]
    requires since < hi <= Head(s.all) && AcceptedBetween(e, target, since, hi)
    requires target in s.stored ==> since <= s.stored[target]
    ensures Delivered(e)
  {
    hide AcceptedBetween, Head;
    forall x | x in e.stored
      ensures e.starts[x] <= e.stored[x] <= Head(e.all) && AcceptedBetween(e, x, e.starts[x], e.stored[x])
    {
      if x in s.stored {
        MoreAccepted(s, e, x, s.starts[x], s.stored[x]);
        if x == target { AcceptedJoin(e, x, s.starts[x], s.stored[x], since, hi); }
      }
    }
  }

  lemma {:induction false} PostFresh(s: State, e: State, target: Target, since: nat, hi: nat, t: Tick, own: Tick)
    requires Fresh(s, t) && Fresh(s, own) && s.stored.Keys == s.starts.Keys && since == Since(own, target)
    requires e.floor == s.floor && e.all == s.all && e.stored == Upserted(s.stored, target, hi)
    requires e.starts == if target in s.starts then s.starts else s.starts[target := since]
    ensures Fresh(e, t)
  {
    hide Head;
  }

  lemma {:induction false} PostInStep(s: State, e: State, target: Target, t: Tick, job: Job)
    requires InStep(s, target, t, job) && job.done < |job.events| && e.rows == s.rows
    requires e.accepted == s.accepted + {(target, job.events[job.done].cursor)}
    ensures InStep(e, target, t, job.(done := job.done + 1))
  {
  }

  lemma {:induction false} AcceptedDelivered(s: State, tick: nat, target: Target)
    requires Sane(s) && Enabled(s, Post(tick, target, true))
    ensures Delivered(Next(s, Post(tick, target, true)))
  {
    var e := Next(s, Post(tick, target, true));
    var job := s.jobs[(tick, target)];
    var hi := job.events[job.done].cursor;
    PostingFacts(s, tick, target);
    assert target in s.stored ==> job.since <= s.stored[target];
    hide Whole, InStep, AcceptedBetween, Head, Delivered, Sane;
    MoreAccepted(s.(accepted := s.accepted + {(target, hi)}), e, target, job.since, hi);
    PostDelivered(s, e, target, job.since, hi);
  }

  lemma {:induction false} AcceptedFresh(s: State, tick: nat, target: Target, k: nat)
    requires Sane(s) && Enabled(s, Post(tick, target, true)) && k in s.ticks
    ensures Fresh(Next(s, Post(tick, target, true)), s.ticks[k])
  {
    var job := s.jobs[(tick, target)];
    PostingFacts(s, tick, target);
    assert Fresh(s, s.ticks[k]) && s.stored.Keys == s.starts.Keys;
    hide Whole, InStep, AcceptedBetween, Head, Delivered, Sane, Fresh;
    PostFresh(s, Next(s, Post(tick, target, true)), target, job.since, job.events[job.done].cursor,
              s.ticks[k], s.ticks[tick]);
  }

  lemma {:induction false} JobFacts(s: State, k: (nat, Target))
    requires Sane(s) && k in s.jobs
    ensures k.0 in s.ticks && s.floor <= s.jobs[k].since && InStep(s, k.1, s.ticks[k.0], s.jobs[k])
  {
  }

  lemma {:induction false} AcceptedInStep(s: State, tick: nat, target: Target, k: (nat, Target))
    requires Sane(s) && Enabled(s, Post(tick, target, true)) && k in s.jobs
    ensures k.0 in s.ticks && s.floor <= s.jobs[k].since
    ensures var e := Next(s, Post(tick, target, true));
            k in e.jobs && e.jobs[k].since == s.jobs[k].since && InStep(e, k.1, s.ticks[k.0], e.jobs[k])
  {
    JobFacts(s, k);
    var e := Next(s, Post(tick, target, true));
    var job := s.jobs[(tick, target)];
    assert e.rows == s.rows && e.accepted == s.accepted + {(target, job.events[job.done].cursor)};
    assert e.jobs == s.jobs[(tick, target) := job.(done := job.done + 1)];
    assert job.done < |job.events|;
    hide InStep, Sane, Next, Enabled;
    if k == (tick, target) {
      PostInStep(s, e, target, s.ticks[tick], job);
    } else {
      JobFrame(s, e, k.1, s.ticks[k.0], s.jobs[k]);
    }
  }

  lemma {:induction false} AcceptedTicks(s: State, tick: nat, target: Target)
    requires Sane(s) && Enabled(s, Post(tick, target, true))
    ensures var e := Next(s, Post(tick, target, true));
            Whole(JournalOf(e)) && forall k :: k in e.ticks ==> Fresh(e, e.ticks[k])
  {
    var e := Next(s, Post(tick, target, true));
    assert JournalOf(e) == JournalOf(s);
    assert Whole(JournalOf(s));
    hide Whole, Head, Fresh, Sane;
    assert e.ticks == s.ticks;
    forall k | k in e.ticks ensures Fresh(e, e.ticks[k]) { AcceptedFresh(s, tick, target, k); }
  }

  lemma {:induction false} AcceptedJobs(s: State, tick: nat, target: Target)
    requires Sane(s) && Enabled(s, Post(tick, target, true))
    ensures var e := Next(s, Post(tick, target, true));
            forall k :: k in e.jobs ==>
              k.0 in e.ticks && e.floor <= e.jobs[k].since && InStep(e, k.1, e.ticks[k.0], e.jobs[k])
  {
    var e := Next(s, Post(tick, target, true));
    assert e.ticks == s.ticks && e.floor == s.floor && e.jobs.Keys == s.jobs.Keys;
    hide InStep, Sane, Next, Enabled;
    forall k | k in e.jobs
      ensures k.0 in e.ticks && e.floor <= e.jobs[k].since && InStep(e, k.1, e.ticks[k.0], e.jobs[k])
    {
      AcceptedInStep(s, tick, target, k);
    }
  }

  lemma {:induction false} AcceptedSane(s: State, tick: nat, target: Target)
    requires Sane(s) && Enabled(s, Post(tick, target, true))
    ensures Sane(Next(s, Post(tick, target, true)))
  {
    AcceptedDelivered(s, tick, target);
    AcceptedTicks(s, tick, target);
    AcceptedJobs(s, tick, target);
    hide Whole, InStep, Head, Delivered, Fresh, Next, Enabled;
  }

  // ── Every run ────────────────────────────────────────────────────────────

  lemma {:induction false} StepSane(s: State, act: Act)
    requires Sane(s) && Enabled(s, act)
    ensures Sane(Next(s, act))
  {
    hide Sane, Next;
    match act {
      case Append(row) => AppendSane(s, row);
      case Retain(read, now) => RetainSane(s, read, now);
      case Open(tick) => OpenSane(s, tick);
      case Fetch(tick, target, budget) => FetchSane(s, tick, target, budget);
      case Post(tick, target, ok) =>
        if ok { AcceptedSane(s, tick, target); } else { RefusedSane(s, tick, target); }
      case Close(tick) => CloseSane(s, tick);
    }
  }

  /** A step moves no target's cursor back, and only a post that target accepted
      moves it at all. */
  lemma {:induction false} StepMoves(s: State, act: Act, target: Target)
    requires Enabled(s, act)
    ensures target in s.stored ==> target in Next(s, act).stored && s.stored[target] <= Next(s, act).stored[target]
    ensures !(act.Post? && act.target == target && act.ok) ==>
              (target in Next(s, act).stored <==> target in s.stored)
              && (target in s.stored ==> Next(s, act).stored[target] == s.stored[target])
  {
    hide Keep, TickPicks, ChainTop, Head;
  }

  /** Over overlapping ticks no stored cursor moves back, and every row between a
      target's start and its cursor, the chain rows deleted since included, was
      accepted by that target. */
  lemma {:induction false} NothingSkipped(s: State, acts: seq<Act>, target: Target)
    requires Sane(s)
    ensures var e := Trace(s, acts);
            && (target in s.stored ==> target in e.stored && s.stored[target] <= e.stored[target])
            && (target in e.stored ==> target in e.starts && AcceptedBetween(e, target, e.starts[target], e.stored[target]))
    decreases |acts|
  {
    if acts == [] {
      assert Delivered(s);
    } else {
      hide Sane, Next, Enabled, AcceptedBetween;
      if Enabled(s, acts[0]) {
        StepSane(s, acts[0]);
        StepMoves(s, acts[0], target);
        NothingSkipped(Next(s, acts[0]), acts[1..], target);
      } else {
        NothingSkipped(s, acts[1..], target);
      }
    }
  }

  const EMPTY := State([], 0, [], map[], map[], {}, map[], map[])

  lemma {:induction false} EmptySane()
    ensures Sane(EMPTY)
  {
  }

  lemma {:induction false} TraceSane(s: State, acts: seq<Act>)
    requires Sane(s)
    ensures Sane(Trace(s, acts))
    decreases |acts|
  {
    hide Sane, Next, Enabled;
    if acts != [] {
      if Enabled(s, acts[0]) {
        StepSane(s, acts[0]);
        TraceSane(Next(s, acts[0]), acts[1..]);
      } else {
        TraceSane(s, acts[1..]);
      }
    }
  }

  /** From an empty store, at any point of any run of appends, retention ticks and
      delivery ticks, and whatever is run from there: no cursor moves back, and
      every row between where a target started and its cursor was accepted by it. */
  lemma {:induction false} AnyRunSkipsNothing(before: seq<Act>, after: seq<Act>, target: Target)
    ensures var s := Trace(EMPTY, before);
            var e := Trace(s, after);
            && (target in s.stored ==> target in e.stored && s.stored[target] <= e.stored[target])
            && (target in e.stored ==> target in e.starts && AcceptedBetween(e, target, e.starts[target], e.stored[target]))
  {
    EmptySane();
    hide *;
    TraceSane(EMPTY, before);
    NothingSkipped(Trace(EMPTY, before), after, target);
  }

  // ── One tick as the worker runs it ───────────────────────────────────────

  /** The rows a behind target is posted (`SQL_ROWS`). */
  function PageOf(rows: seq<EventRow>, since: nat, budget: nat): seq<EventRow> {
    var above := Keep(rows, (r: EventRow) => since < r.cursor);
    above[..Min(|above|, budget)]
  }

  /** The rows posted in order up to the first refusal, `ok` the answers. */
  function PostAll(stored: map<Target, nat>, target: Target, events: seq<EventRow>, ok: (Target, nat) -> bool): map<Target, nat>
    decreases |events|
  {
    if events == [] || !ok(target, events[0].cursor) then stored
    else PostAll(Upserted(stored, target, events[0].cursor), target, events[1..], ok)
  }

  /** The behind targets served in turn; each one's rows are read when its turn
      comes, `found` what the journal holds then. */
  function ServeAll(stored: map<Target, nat>, t: Tick, found: Target -> seq<EventRow>, targets: seq<Target>, budget: nat,
                    ok: (Target, nat) -> bool): map<Target, nat>
    decreases |targets|
  {
    if targets == [] then stored
    else
      var x := targets[0];
      ServeAll(if Behind(t, x) then PostAll(stored, x, PageOf(found(x), Since(t, x), budget), ok) else stored,
               t, found, targets[1..], budget, ok)
  }

  /** The delivery cursors as the tick updates them in place. */
  class Deliveries {
    var stored: map<Target, nat>

    constructor ()
      ensures stored == map[]
    {
      stored := map[];
    }

    /** `post_events` (src/events.rs:731-758). */
    method PostEvents(target: Target, events: seq<EventRow>, ok: (Target, nat) -> bool)
      modifies this
      ensures stored == PostAll(old(stored), target, events, ok)
    {
      var i := 0;
      while i < |events|
        invariant 0 <= i <= |events|
        invariant PostAll(old(stored), target, events, ok) == PostAll(stored, target, events[i..], ok)
      {
        if !ok(target, events[i].cursor) { break; }
        stored := Upserted(stored, target, events[i].cursor);
        i := i + 1;
      }
    }

    /** `deliver_v2` (src/events.rs:774-829): the head, the floor and the cursors
        read once; a target at the head, ahead of the journal or below the floor
        is passed over, another's rows are read anew. */
    method Deliver(rows: seq<EventRow>, floor: nat, found: Target -> seq<EventRow>, targets: seq<Target>, budget: nat,
                   ok: (Target, nat) -> bool)
      modifies this
      ensures stored == ServeAll(old(stored), Tick(Head(rows), floor, old(stored)), found, targets, budget, ok)
    {
      var t := Tick(Head(rows), floor, stored);
      var i := 0;
      while i < |targets|
        invariant 0 <= i <= |targets|
        invariant ServeAll(old(stored), t, found, targets, budget, ok) == ServeAll(stored, t, found, targets[i..], budget, ok)
      {
        var since := Since(t, targets[i]);
        if since != t.head && since <= t.head && floor <= since {
          PostEvents(targets[i], PageOf(found(targets[i]), since, budget), ok);
        }
        i := i + 1;
      }
    }
  }

  /** Posting one target changes no other's cursor, and its own depends on its
      own answers alone. */
  lemma {:induction false} PostAllOwn(a: map<Target, nat>, b: map<Target, nat>, target: Target, events: seq<EventRow>,
                                      ok: (Target, nat) -> bool, other: (Target, nat) -> bool, x: Target)
    requires x in a <==> x in b
    requires x in a ==> a[x] == b[x]
    requires target == x ==> forall c: nat :: ok(x, c) == other(x, c)
    ensures var p, q := PostAll(a, target, events, ok), PostAll(b, target, events, other);
            (x in p <==> x in q) && (x in p ==> p[x] == q[x])
    decreases |events|
  {
    if target != x {
      PostAllOther(a, target, events, ok, x);
      PostAllOther(b, target, events, other, x);
    } else if events != [] {
      PostAllOwn(Upserted(a, target, events[0].cursor), Upserted(b, target, events[0].cursor), target, events[1..], ok, other, x);
    }
  }

  lemma {:induction false} PostAllOther(stored: map<Target, nat>, target: Target, events: seq<EventRow>,
                                        ok: (Target, nat) -> bool, x: Target)
    requires target != x
    ensures var p := PostAll(stored, target, events, ok); (x in p <==> x in stored) && (x in p ==> p[x] == stored[x])
    decreases |events|
  {
    if events != [] {
      PostAllOther(Upserted(stored, target, events[0].cursor), target, events[1..], ok, x);
    }
  }

  /** A refusal by some targets changes nothing for the others: a target ends a
      tick where it ends with any other answers of the rest. */
  lemma {:induction false} TargetsApart(a: map<Target, nat>, b: map<Target, nat>, t: Tick, found: Target -> seq<EventRow>,
                                        targets: seq<Target>, budget: nat, ok: (Target, nat) -> bool,
                                        other: (Target, nat) -> bool, x: Target)
    requires x in a <==> x in b
    requires x in a ==> a[x] == b[x]
    requires forall c: nat :: ok(x, c) == other(x, c)
    ensures var p, q := ServeAll(a, t, found, targets, budget, ok), ServeAll(b, t, found, targets, budget, other);
            (x in p <==> x in q) && (x in p ==> p[x] == q[x])
    decreases |targets|
  {
    if targets != [] {
      var y := targets[0];
      hide PageOf, PostAll;
      var page := PageOf(found(y), Since(t, y), budget);
      if Behind(t, y) {
        PostAllOwn(a, b, y, page, ok, other, x);
        TargetsApart(PostAll(a, y, page, ok), PostAll(b, y, page, other), t, found, targets[1..], budget, ok, other, x);
      } else {
        TargetsApart(a, b, t, found, targets[1..], budget, ok, other, x);
      }
    }
  }
}
