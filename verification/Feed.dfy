/** The feed read and the retention told apart from the code that does them: who is
    told what, which rows a page holds, that a reader gets to the head, and which
    rows a tick deletes (src/events.rs:424-543, 960-985). */
module Feed {
  import opened Wrappers
  import opened Journal

  // ── The page ─────────────────────────────────────────────────────────────

  /** The rows above a cursor start at row `k`. */
  ghost predicate StartsAt(rows: seq<EventRow>, since: nat, k: nat) {
    && k <= |rows|
    && (forall i :: 0 <= i < k ==> rows[i].cursor <= since)
    && forall i :: k <= i < |rows| ==> since < rows[i].cursor
  }

  /** The first `limit` rows above the cursor in order, or all there are. */
  ghost predicate PageAt(rows: seq<EventRow>, since: nat, limit: nat, events: seq<EventRow>) {
    exists k: nat :: StartsAt(rows, since, k) && |events| == Min(limit, |rows| - k) && events == rows[k..k + |events|]
  }

  /** Every stored row is below the cursor. */
  ghost predicate AllBelow(rows: seq<EventRow>, since: nat) {
    0 < since && forall i :: 0 <= i < |rows| ==> rows[i].cursor < since
  }

  lemma {:induction false} StartFound(rows: seq<EventRow>, since: nat) returns (k: nat)
    requires Ascending(rows)
    ensures StartsAt(rows, since, k)
  {
    k := |rows|;
    if rows != [] && since < rows[|rows| - 1].cursor {
      var n := |rows| - 1;
      assert forall i :: 0 <= i < n ==> rows[..n][i] == rows[i];
      k := StartFound(rows[..n], since);
    }
  }

  lemma {:induction false} AboveFrom(rows: seq<EventRow>, since: nat) returns (k: nat)
    requires Ascending(rows)
    ensures StartsAt(rows, since, k) && Keep(rows, (r: EventRow) => since < r.cursor) == rows[k..]
  {
    var p := (r: EventRow) => since < r.cursor;
    k := StartFound(rows, since);
    assert rows[..k] + rows[k..] == rows;
    hide Keep;
    KeepAppend(rows[..k], rows[k..], p);
    KeepNone(rows[..k], p);
    KeepAll(rows[k..], p);
  }

  lemma {:induction false} HeadIsLast(rows: seq<EventRow>, since: nat)
    requires Ascending(rows)
    ensures Head(rows) < since <==> AllBelow(rows, since)
  {
  }

  /** A read says the cursor is ahead exactly when every stored row is below it, and
      that it expired exactly when it is not ahead and below the floor. Else it
      answers the first `limit` rows above it in order, the last of them as the
      next cursor, and that there is more exactly when a row lies above that. */
  lemma {:induction false} ReadExact(rows: seq<EventRow>, floor: nat, since: nat, limit: nat)
    requires Ascending(rows)
    ensures var r := ReadWake(rows, floor, since, limit);
            && (r.Ahead? <==> AllBelow(rows, since))
            && (r.Expired? <==> !AllBelow(rows, since) && since < floor)
            && (r.Expired? ==> r.floor == floor)
            && (r.Page? ==>
                  && PageAt(rows, since, limit, r.events)
                  && r.cursor == (if r.events == [] then since else r.events[|r.events| - 1].cursor)
                  && (r.hasMore <==> exists i :: 0 <= i < |rows| && r.cursor < rows[i].cursor))
  {
    HeadIsLast(rows, since);
    var k := AboveFrom(rows, since);
    var r := ReadWake(rows, floor, since, limit);
    hide Keep;
    if r.Page? {
      assert r.events == rows[k..k + |r.events|];
      MoreExact(rows, since, k, |r.events|, r.cursor);
    }
  }

  lemma {:induction false} MoreExact(rows: seq<EventRow>, since: nat, k: nat, n: nat, cursor: nat)
    requires Ascending(rows) && StartsAt(rows, since, k) && k + n <= |rows|
    requires cursor == if n == 0 then since else rows[k + n - 1].cursor
    ensures StartsAt(rows, cursor, k + n)
    ensures k + n < |rows| <==> exists i :: 0 <= i < |rows| && cursor < rows[i].cursor
  {
    if k + n < |rows| { assert cursor < rows[k + n].cursor; }
  }

  // ── Who is told ──────────────────────────────────────────────────────────

  /** At this state the read of step `i` finds the cursor below the floor. */
  ghost predicate ReadBelowFloor(s: System, steps: seq<Step>, i: nat) {
    i < |steps| && steps[i].Read? && 1 <= steps[i].limit <= PAGE_SIZE
    && Trace(s, steps[..i]).client.cursor < Trace(s, steps[..i]).floor
  }

  lemma {:induction false} ReadTells(s: System, limit: nat, got: nat)
    requires Whole(s) && Served(s) && Enabled(s, Read(limit, got))
    ensures var e := Next(s, Read(limit, got));
            && (s.client.cursor < s.floor ==> e.client == s.client.(told := Some(Expired(s.floor))))
            && (s.floor <= s.client.cursor ==> e.client.told == s.client.told)
  {
    RowsAscending(s);
    hide Whole, WholeRows, Ascending, Keep;
  }

  lemma {:induction false} OtherTells(s: System, step: Step)
    requires Enabled(s, step) && !step.Read?
    ensures Next(s, step).client == s.client
  {
    hide Keep, TickPicks, ChainTop;
  }

  lemma {:induction false} BelowLater(s: System, steps: seq<Step>, i: nat)
    requires steps != []
    ensures var e := if Enabled(s, steps[0]) then Next(s, steps[0]) else s;
            ReadBelowFloor(s, steps, i + 1) <==> ReadBelowFloor(e, steps[1..], i)
  {
    hide Next, Enabled;
    if i + 1 < |steps| { assert steps[..i + 1][1..] == steps[1..][..i] && steps[..i + 1][0] == steps[0]; }
  }

  /** A client not told anything yet is told something over a run if and only if
      some read of it found its cursor below the floor: then that it expired. */
  lemma {:induction false} ToldExactly(s: System, steps: seq<Step>)
    requires Whole(s) && Served(s)
    ensures var told := Trace(s, steps).client.told;
            && ((exists i: nat :: ReadBelowFloor(s, steps, i)) ==> told.Some? && told.value.Expired?)
            && ((forall i: nat :: !ReadBelowFloor(s, steps, i)) ==> told == s.client.told)
    decreases |steps|
  {
    hide *;
    if steps == [] {
      TraceNone(s);
      forall i: nat ensures !ReadBelowFloor(s, steps, i) { NoneBelowFloor(s, i); }
    } else {
      var e := if Enabled(s, steps[0]) then Next(s, steps[0]) else s;
      TraceCons(s, steps);
      forall i: nat ensures ReadBelowFloor(s, steps, i + 1) <==> ReadBelowFloor(e, steps[1..], i) {
        BelowLater(s, steps, i);
      }
      StepTells(s, steps);
      ToldExactly(e, steps[1..]);
      BelowSplit(s, e, steps);
    }
  }

  lemma {:induction false} BelowSplit(s: System, e: System, steps: seq<Step>)
    requires steps != []
    requires forall i: nat :: ReadBelowFloor(s, steps, i + 1) <==> ReadBelowFloor(e, steps[1..], i)
    ensures (exists i: nat :: ReadBelowFloor(s, steps, i)) <==>
              ReadBelowFloor(s, steps, 0) || exists i: nat :: ReadBelowFloor(e, steps[1..], i)
  {
    hide ReadBelowFloor;
    if i: nat :| ReadBelowFloor(s, steps, i) {
      if 0 < i { assert ReadBelowFloor(e, steps[1..], i - 1) by { assert ReadBelowFloor(s, steps, (i - 1) + 1); } }
    }
  }

  lemma {:induction false} NoneBelowFloor(s: System, i: nat)
    ensures !ReadBelowFloor(s, [], i)
  {
  }

  lemma {:induction false} TraceNone(s: System)
    ensures Trace(s, []) == s
  {
  }

  lemma {:induction false} TraceCons(s: System, steps: seq<Step>)
    requires steps != []
    ensures Trace(s, steps) == Trace(if Enabled(s, steps[0]) then Next(s, steps[0]) else s, steps[1..])
  {
    hide Next, Enabled;
  }

  lemma {:induction false} StepTells(s: System, steps: seq<Step>)
    requires Whole(s) && Served(s) && steps != []
    ensures var e := if Enabled(s, steps[0]) then Next(s, steps[0]) else s;
            && Whole(e) && Served(e)
            && (ReadBelowFloor(s, steps, 0) ==> e.client.told == Some(Expired(s.floor)))
            && (!ReadBelowFloor(s, steps, 0) ==> e.client.told == s.client.told)
  {
    assert steps[..0] == [];
    TraceNone(s);
    if Enabled(s, steps[0]) {
      StepKeeps(s, steps[0]);
      if steps[0].Read? { ReadTells(s, steps[0].limit, steps[0].got); } else { OtherTells(s, steps[0]); }
    }
    hide Whole, Served, Next, Trace;
  }

  // ── A reader gets to the head ────────────────────────────────────────────

  /** `n` reads in a row, each page taken in whole. */
  function Reads(n: nat, limit: nat): seq<Step> {
    if n == 0 then [] else [Read(limit, limit)] + Reads(n - 1, limit)
  }

  /** The rows `n` pages of `limit` hold. */
  function Paged(n: nat, limit: nat): nat {
    n * limit
  }

  lemma {:induction false} PagedNext(n: nat, limit: nat)
    requires 0 < n
    ensures Paged(n, limit) == limit + Paged(n - 1, limit)
  {
    assert n * limit == limit + (n - 1) * limit;
  }

  /** A client that has taken in the rows from `k` up to `k + m`. */
  ghost predicate TookIn(s: System, e: System, k: nat, m: nat) {
    && e == s.(client := e.client) && k + m <= |s.rows|
    && e.client == s.client.(cursor := e.client.cursor, received := s.client.received + s.rows[k..k + m])
    && StartsAt(s.rows, e.client.cursor, k + m)
    && s.client.cursor <= e.client.cursor && (0 < m ==> e.client.cursor == s.rows[k + m - 1].cursor)
    && (m == 0 ==> e.client.cursor == s.client.cursor)
  }

  lemma {:induction false} ReadMoves(s: System, limit: nat, k: nat)
    requires Ascending(s.rows) && s.floor <= s.client.cursor <= Head(s.rows) && 1 <= limit <= 100
    requires StartsAt(s.rows, s.client.cursor, k)
    ensures Enabled(s, Read(limit, limit)) && TookIn(s, Next(s, Read(limit, limit)), k, Min(limit, |s.rows| - k))
  {
    var c := s.client.cursor;
    var m := Min(limit, |s.rows| - k);
    var after := if m == 0 then c else s.rows[k + m - 1].cursor;
    ReadIs(s.rows, s.floor, c, limit, k, m, after);
    MoreExact(s.rows, c, k, m, after);
    TakenIs(s.client, s.rows[k..k + m], after, limit < |s.rows| - k, limit);
    hide ReadWake, StartsAt, Take, Ascending;
  }

  lemma {:induction false} ReadIs(rows: seq<EventRow>, floor: nat, since: nat, limit: nat, k: nat, m: nat, after: nat)
    requires Ascending(rows) && floor <= since <= Head(rows) && StartsAt(rows, since, k) && m == Min(limit, |rows| - k)
    requires after == if m == 0 then since else rows[k + m - 1].cursor
    ensures ReadWake(rows, floor, since, limit) == Page(rows[k..k + m], after, limit < |rows| - k)
  {
    var j := AboveFrom(rows, since);
    StartUnique(rows, since, j, k);
    hide Keep, Ascending, StartsAt;
    assert rows[k..][..m] == rows[k..k + m];
  }

  lemma {:induction false} TakenIs(c: Client, events: seq<EventRow>, after: nat, hasMore: bool, got: nat)
    requires |events| <= got && after == if events == [] then c.cursor else events[|events| - 1].cursor
    ensures Take(c, Page(events, after, hasMore), got) == c.(received := c.received + events, cursor := after)
  {
    assert events[..Min(|events|, got)] == events;
  }

  lemma {:induction false} StartUnique(rows: seq<EventRow>, since: nat, j: nat, k: nat)
    requires StartsAt(rows, since, j) && StartsAt(rows, since, k)
    ensures j == k
  {
    assert j < |rows| ==> since < rows[j].cursor;
    assert k < |rows| ==> since < rows[k].cursor;
  }

  lemma {:induction false} TookInMore(s: System, e: System, f: System, k: nat, m: nat, o: nat)
    requires TookIn(s, e, k, m) && TookIn(e, f, k + m, o)
    ensures TookIn(s, f, k, m + o)
  {
    assert s.rows[k..k + m] + s.rows[k + m..k + m + o] == s.rows[k..k + (m + o)];
  }

  lemma {:induction false} TookNothing(s: System, k: nat)
    requires StartsAt(s.rows, s.client.cursor, k)
    ensures TookIn(s, s, k, 0)
  {
    assert s.client.received + s.rows[k..k + 0] == s.client.received;
  }

  lemma {:induction false} ReadsCons(s: System, n: nat, limit: nat)
    requires 0 < n && Enabled(s, Read(limit, limit))
    ensures Trace(s, Reads(n, limit)) == Trace(Next(s, Read(limit, limit)), Reads(n - 1, limit))
  {
    assert Reads(n, limit)[1..] == Reads(n - 1, limit);
    hide Next, Enabled;
  }

  lemma {:induction false} StillInside(s: System, e: System, k: nat, m: nat)
    requires Ascending(s.rows) && s.floor <= s.client.cursor <= Head(s.rows) && TookIn(s, e, k, m)
    ensures Ascending(e.rows) && e.floor <= e.client.cursor <= Head(e.rows) && StartsAt(e.rows, e.client.cursor, k + m)
    ensures e.rows == s.rows
  {
  }

  lemma {:induction false} ReadsNone(s: System, limit: nat)
    ensures Trace(s, Reads(0, limit)) == s && Paged(0, limit) == 0
  {
  }

  lemma {:induction false} MinSteps(limit: nat, rest: nat, left: nat)
    ensures Min(limit, left) + Min(rest, left - Min(limit, left)) == Min(limit + rest, left)
    ensures 0 <= left - Min(limit, left) && Min(0, left) == 0
    ensures 0 <= Min(limit, left) && 0 <= Min(rest, left - Min(limit, left))
  {
  }

  /** `n` whole pages with no retention between take in the next `n * limit` rows. */
  lemma {:induction false} ReadsTakeIn(s: System, n: nat, limit: nat, k: nat)
    requires Ascending(s.rows) && s.floor <= s.client.cursor <= Head(s.rows) && 1 <= limit <= 100
    requires StartsAt(s.rows, s.client.cursor, k) && k <= |s.rows|
    ensures TookIn(s, Trace(s, Reads(n, limit)), k, Min(Paged(n, limit), |s.rows| - k))
    decreases n
  {
    hide *;
    var left := |s.rows| - k;
    if n == 0 {
      ReadsNone(s, limit);
      TookNothing(s, k);
      MinSteps(0, 0, left);
    } else {
      ReadMoves(s, limit, k);
      var e := Next(s, Read(limit, limit));
      var m := Min(limit, left);
      MinSteps(limit, Paged(n - 1, limit), left);
      StillInside(s, e, k, m);
      StartWithin(e.rows, e.client.cursor, k + m);
      ReadsTakeIn(e, n - 1, limit, k + m);
      ReadsCons(s, n, limit);
      PagedNext(n, limit);
      TookInMore(s, e, Trace(s, Reads(n, limit)), k, m, Min(Paged(n - 1, limit), left - m));
    }
  }

  lemma {:induction false} StartWithin(rows: seq<EventRow>, since: nat, k: nat)
    requires StartsAt(rows, since, k)
    ensures k <= |rows|
  {
  }

  /** A reader between the floor and the head that reads on, each page taken in
      whole and no row deleted between, reaches the head: as soon as its pages hold
      the rows above it, it has received each of them, in order, and stands there. */
  lemma {:induction false} ReaderReachesHead(s: System, n: nat, limit: nat, k: nat)
    requires Ascending(s.rows) && s.floor <= s.client.cursor <= Head(s.rows) && 1 <= limit <= 100
    requires StartsAt(s.rows, s.client.cursor, k) && k <= |s.rows| && |s.rows| - k <= Paged(n, limit)
    ensures var e := Trace(s, Reads(n, limit));
            && e.client.cursor == Head(s.rows) && e.client.told == s.client.told
            && e.client.received == s.client.received + s.rows[k..]
  {
    ReadsTakeIn(s, n, limit, k);
    hide Trace, Reads, Paged;
    var e := Trace(s, Reads(n, limit));
    assert TookIn(s, e, k, |s.rows| - k);
    if k == |s.rows| && s.rows != [] { assert s.rows[k - 1].cursor <= s.client.cursor; }
    assert s.rows[k..|s.rows|] == s.rows[k..];
  }

  // ── What a tick deletes ──────────────────────────────────────────────────

  /** The row is below the last, and old: a chain row above the floor read, with
      every row from there up to it, for 90 days; an age row for a day. */
  predicate Old(rows: seq<EventRow>, read: nat, now: nat, r: EventRow) {
    r.cursor < Head(rows)
    && match r.kind
       case Chain =>
         read < r.cursor && forall x :: x in rows && read < x.cursor <= r.cursor ==> x.created + 90 * 86400 < now
       case TipAge => r.created + 86400 < now
       case Unknown => false
  }

  lemma {:induction false} YoungExact(rows: seq<EventRow>, read: nat, cutoff: nat, r: EventRow)
    requires Ascending(rows) && r in rows && read < r.cursor
    ensures r.cursor < Young(rows, read, cutoff) <==>
              r.cursor < Head(rows) && forall x :: x in rows && read < x.cursor <= r.cursor ==> x.created < cutoff
  {
    var p := (x: EventRow) => read < x.cursor && cutoff <= x.created;
    var young := Keep(rows, p);
    KeepIn(rows, p);
    KeepAscending(rows, p);
    hide Keep;
    if young != [] {
      assert young[0] in young;
      CursorBelowHead(rows, young[0]);
    }
    forall x | x in rows && read < x.cursor && cutoff <= x.created ensures Young(rows, read, cutoff) <= x.cursor {
      YoungIsLow(rows, read, cutoff, x);
    }
  }

  lemma {:induction false} CutoffExact(created: nat, now: nat, age: nat)
    ensures created < SaturatingSub(now, age) <==> created + age < now
  {
  }

  lemma {:induction false} PickableExact(rows: seq<EventRow>, read: nat, now: nat, r: EventRow)
    requires Ascending(rows) && r in rows
    ensures Pickable(rows, read, SaturatingSub(now, RETAIN_CHAIN_SECS), SaturatingSub(now, RETAIN_TIP_AGE_SECS), r)
       <==> Old(rows, read, now, r)
  {
    if read < r.cursor { YoungExact(rows, read, SaturatingSub(now, RETAIN_CHAIN_SECS), r); }
    hide Young, SaturatingSub;
    forall x: EventRow ensures x.created < SaturatingSub(now, RETAIN_CHAIN_SECS) <==> x.created + 90 * 86400 < now {
      CutoffExact(x.created, now, RETAIN_CHAIN_SECS);
    }
    CutoffExact(r.created, now, RETAIN_TIP_AGE_SECS);
  }

  /** A tick deletes exactly the old rows, the lowest thousand of them when there
      are more. */
  lemma {:induction false} TickDeletes(rows: seq<EventRow>, read: nat, now: nat)
    requires Ascending(rows)
    ensures var picked := TickPicks(rows, read, now);
            && |picked| <= 1000 && Ascending(picked)
            && (forall r :: r in picked ==> r in rows && Old(rows, read, now, r))
            && forall r :: r in rows && Old(rows, read, now, r) && r !in picked ==>
                 |picked| == 1000 && forall x :: x in picked ==> x.cursor < r.cursor
  {
    var a, b := SaturatingSub(now, RETAIN_CHAIN_SECS), SaturatingSub(now, RETAIN_TIP_AGE_SECS);
    var p := (r: EventRow) => Pickable(rows, read, a, b, r);
    var all := Keep(rows, p);
    KeepIn(rows, p);
    KeepAscending(rows, p);
    forall r | r in rows ensures Pickable(rows, read, a, b, r) <==> Old(rows, read, now, r) {
      PickableExact(rows, read, now, r);
    }
    hide Keep, Pickable, Old;
    FirstOf(all, Min(|all|, ROWS_A_TICK));
  }

  lemma {:induction false} FirstOf(all: seq<EventRow>, n: nat)
    requires Ascending(all) && n <= |all|
    ensures Ascending(all[..n]) && forall r :: r in all && r !in all[..n] ==>
              n < |all| && forall x :: x in all[..n] ==> x.cursor < r.cursor
  {
    forall i | 0 <= i < n ensures all[i] in all[..n] { assert all[..n][i] == all[i]; }
    forall r | r in all && r !in all[..n] ensures n < |all| && forall x :: x in all[..n] ==> x.cursor < r.cursor {
      var i :| 0 <= i < |all| && all[i] == r;
      assert n <= i;
    }
  }

  /** The floor a tick leaves is the old one or the cursor of a chain row it
      deleted, and no chain row it deleted is above it. */
  lemma {:induction false} FloorIsExact(s: System, tick: nat, now: nat)
    requires Enabled(s, Retain(tick, now))
    ensures var picked := TickPicks(s.rows, s.ticks[tick], now);
            var e := Next(s, Retain(tick, now));
            && (e.floor == s.floor || exists r :: r in picked && r.kind.Chain? && r.cursor == e.floor)
            && s.floor <= e.floor && forall r :: r in picked && r.kind.Chain? ==> r.cursor <= e.floor
  {
    TopIsPicked(TickPicks(s.rows, s.ticks[tick], now));
    hide TickPicks, Keep, ChainTop;
  }

  lemma {:induction false} TopIsPicked(picked: seq<EventRow>)
    ensures ChainTop(picked) == 0 || exists r :: r in picked && r.kind.Chain? && r.cursor == ChainTop(picked)
  {
    if picked != [] {
      TopIsPicked(picked[..|picked| - 1]);
      assert picked[|picked| - 1] in picked && forall r :: r in picked[..|picked| - 1] ==> r in picked;
    }
  }
}
