/** The chain-event journal: appended rows, reads by cursor, and the retention
    that deletes old rows and raises the floor (src/events.rs:414-543). */
module Journal {
  import opened Wrappers

  // ── Rows ─────────────────────────────────────────────────────────────────

  /** A chain row is of one of the seven chain kinds; a row of any other kind
      but `tipAge` is kept (src/events.rs:512). */
  datatype Kind = Chain | TipAge | Unknown

  datatype EventRow = EventRow(cursor: nat, kind: Kind, created: nat, payload: string)

  const PAGE_SIZE := 100
  const ROWS_A_TICK := 1000
  const RETAIN_CHAIN_SECS := 90 * 86_400
  const RETAIN_TIP_AGE_SECS := 86_400

  ghost predicate Ascending(rows: seq<EventRow>) {
    forall i, j :: 0 <= i < j < |rows| ==> rows[i].cursor < rows[j].cursor
  }

  /** The rows a filter keeps, in order. */
  function Keep(rows: seq<EventRow>, keep: EventRow -> bool): seq<EventRow> {
    if rows == [] then []
    else
      var n := |rows| - 1;
      Keep(rows[..n], keep) + if keep(rows[n]) then [rows[n]] else []
  }

  lemma {:induction false} KeepIn(rows: seq<EventRow>, keep: EventRow -> bool)
    ensures forall x :: x in Keep(rows, keep) <==> x in rows && keep(x)
  {
    if rows != [] {
      var n := |rows| - 1;
      KeepIn(rows[..n], keep);
      assert forall x :: x in rows <==> x in rows[..n] || x == rows[n];
    }
  }

  lemma {:induction false} KeepAscending(rows: seq<EventRow>, keep: EventRow -> bool)
    requires Ascending(rows)
    ensures Ascending(Keep(rows, keep))
  {
    if rows != [] {
      var n := |rows| - 1;
      KeepAscending(rows[..n], keep);
      KeepIn(rows[..n], keep);
      var r := Keep(rows[..n], keep);
      hide Keep;
      forall i | 0 <= i < |r| ensures r[i].cursor < rows[n].cursor {
        assert r[i] in r;
        var j :| 0 <= j < n && rows[j] == r[i];
      }
    }
  }

  lemma {:induction false} KeepSame(rows: seq<EventRow>, p: EventRow -> bool, q: EventRow -> bool)
    requires forall x :: x in rows ==> p(x) == q(x)
    ensures Keep(rows, p) == Keep(rows, q)
  {
    if rows != [] {
      assert forall x :: x in rows[..|rows| - 1] ==> x in rows;
      KeepSame(rows[..|rows| - 1], p, q);
    }
  }

  /** Two filters in turn are one. */
  lemma {:induction false} KeepBoth(rows: seq<EventRow>, p: EventRow -> bool, q: EventRow -> bool, both: EventRow -> bool)
    requires forall x :: x in rows ==> (both(x) <==> p(x) && q(x))
    ensures Keep(Keep(rows, p), q) == Keep(rows, both)
  {
    if rows != [] {
      var n := |rows| - 1;
      assert rows[n] in rows && forall x :: x in rows[..n] ==> x in rows;
      KeepBoth(rows[..n], p, q, both);
      KeepSnoc(Keep(rows[..n], p), rows[n], q);
      assert Keep(rows[..n], p) + [] == Keep(rows[..n], p);
    }
  }

  lemma {:induction false} KeepSnoc(rows: seq<EventRow>, row: EventRow, p: EventRow -> bool)
    ensures Keep(rows + [row], p) == Keep(rows, p) + if p(row) then [row] else []
  {
    assert (rows + [row])[..|rows|] == rows;
  }

  lemma {:induction false} KeepAppend(a: seq<EventRow>, b: seq<EventRow>, p: EventRow -> bool)
    ensures Keep(a + b, p) == Keep(a, p) + Keep(b, p)
    decreases |b|
  {
    hide *;
    if b == [] {
      KeepEmpty(p);
      assert a + b == a;
      assert Keep(a, p) + [] == Keep(a, p);
    } else {
      var n := |b| - 1;
      KeepAppend(a, b[..n], p);
      KeepSnoc(b[..n], b[n], p);
      KeepSnoc(a + b[..n], b[n], p);
      SnocParts(a, b);
      assert Keep(a, p) + (Keep(b[..n], p) + if p(b[n]) then [b[n]] else [])
          == (Keep(a, p) + Keep(b[..n], p)) + if p(b[n]) then [b[n]] else [];
    }
  }

  lemma {:induction false} KeepEmpty(p: EventRow -> bool)
    ensures Keep([], p) == []
  {
  }

  lemma {:induction false} SnocParts(a: seq<EventRow>, b: seq<EventRow>)
    requires b != []
    ensures b == b[..|b| - 1] + [b[|b| - 1]] && a + b == (a + b[..|b| - 1]) + [b[|b| - 1]]
  {
  }

  // ── Reads ────────────────────────────────────────────────────────────────

  function Head(rows: seq<EventRow>): nat {
    if rows == [] then 0 else rows[|rows| - 1].cursor
  }

  /** What a feed read answers: the cursor is ahead of the journal, below the
      floor, or the page of the rows above it. */
  datatype Wake = Ahead | Expired(floor: nat) | Page(events: seq<EventRow>, cursor: nat, hasMore: bool)

  /** `read_wake`, and the answer its callers give (src/events.rs:424-496,
      960-985). */
  function ReadWake(rows: seq<EventRow>, floor: nat, since: nat, limit: nat): Wake {
    var above := Keep(rows, (r: EventRow) => since < r.cursor);
    var events := above[..Min(|above|, limit)];
    if Head(rows) < since then Ahead
    else if since < floor then Expired(floor)
    else Page(events, if events == [] then since else events[|events| - 1].cursor, limit < |above|)
  }

  // ── Retention ────────────────────────────────────────────────────────────

  /** The first row above the floor read that is not old enough, or the head. */
  function Young(rows: seq<EventRow>, floor: nat, cutoff: nat): nat {
    var young := Keep(rows, (r: EventRow) => floor < r.cursor && cutoff <= r.created);
    if young == [] then Head(rows) else young[0].cursor
  }

  predicate Pickable(rows: seq<EventRow>, floor: nat, cutoff: nat, ageCutoff: nat, r: EventRow) {
    || (r.kind.Chain? && floor < r.cursor < Young(rows, floor, cutoff))
    || (r.kind.TipAge? && r.created < ageCutoff && r.cursor < Head(rows))
  }

  /** The rows one tick deletes (`RETAIN_PICKED`), at most a thousand. */
  function Picked(rows: seq<EventRow>, floor: nat, cutoff: nat, ageCutoff: nat): seq<EventRow> {
    var all := Keep(rows, (r: EventRow) => Pickable(rows, floor, cutoff, ageCutoff, r));
    all[..Min(|all|, ROWS_A_TICK)]
  }

  /** The greatest cursor of a picked chain row, 0 when there is none. */
  function ChainTop(picked: seq<EventRow>): (r: nat)
    ensures forall x :: x in picked && x.kind.Chain? ==> x.cursor <= r
  {
    if picked == [] then 0
    else
      var n := |picked| - 1;
      assert forall x :: x in picked <==> x in picked[..n] || x == picked[n];
      if picked[n].kind.Chain? then Max(ChainTop(picked[..n]), picked[n].cursor) else ChainTop(picked[..n])
  }

  function SaturatingSub(a: nat, b: nat): nat {
    if a < b then 0 else a - b
  }

  /** The rows a tick at `now` picks with the floor it read. */
  function TickPicks(rows: seq<EventRow>, read: nat, now: nat): seq<EventRow> {
    Picked(rows, read, SaturatingSub(now, RETAIN_CHAIN_SECS), SaturatingSub(now, RETAIN_TIP_AGE_SECS))
  }

  /** The journal as the worker updates it in place. */
  class Store {
    var rows: seq<EventRow>
    var floor: nat

    constructor ()
      ensures rows == [] && floor == 0
    {
      rows, floor := [], 0;
    }

    /** A trigger's insert: the cursor is the next of the AUTOINCREMENT key. */
    method Append(cursor: nat, kind: Kind, created: nat, payload: string)
      requires Head(rows) < cursor
      modifies this`rows
      ensures rows == old(rows) + [EventRow(cursor, kind, created, payload)]
    {
      rows := rows + [EventRow(cursor, kind, created, payload)];
    }

    /** `retain`'s transaction (src/events.rs:525-543): the floor first, then the
        delete, each picking the rows anew. */
    method Retain(read: nat, now: nat)
      modifies this
      ensures floor == Max(old(floor), ChainTop(TickPicks(old(rows), read, now)))
      ensures rows == Keep(old(rows), (r: EventRow) => r !in TickPicks(old(rows), read, now))
    {
      floor := Max(floor, ChainTop(TickPicks(rows, read, now)));
      ghost var was := rows;
      var picked := TickPicks(rows, read, now);
      rows := Keep(rows, (r: EventRow) => r !in picked);
      KeepSame(was, (r: EventRow) => r !in picked, (r: EventRow) => r !in TickPicks(was, read, now));
    }
  }

  // ── Steps interleaved ────────────────────────────────────────────────────

  /** One client: where it started, the cursor it holds, what it has received,
      and what it was told instead of a page. */
  datatype Client = Client(start: nat, cursor: nat, received: seq<EventRow>, told: Option<Wake>)

  /** The store, all the rows it ever held, the floors the open ticks have read,
      and the client. */
  datatype System = System(rows: seq<EventRow>, floor: nat, all: seq<EventRow>, ticks: map<nat, nat>, client: Client)

  /** Rows are appended, ticks read the floor and later run their transaction,
      however they overlap; the client reads a page and takes in the first `got`
      of its rows before the connection ends. */
  datatype Step =
    | Append(row: EventRow)
    | ReadFloor(tick: nat)
    | Retain(tick: nat, now: nat)
    | Read(limit: nat, got: nat)

  predicate Enabled(s: System, step: Step) {
    match step
    case Append(row) => Head(s.all) < row.cursor
    case ReadFloor(_) => true
    case Retain(tick, _) => tick in s.ticks
    case Read(limit, _) => 1 <= limit <= PAGE_SIZE
  }

  function Take(c: Client, wake: Wake, got: nat): Client {
    match wake
    case Page(events, _, _) =>
      var taken := events[..Min(|events|, got)];
      c.(received := c.received + taken, cursor := if taken == [] then c.cursor else taken[|taken| - 1].cursor)
    case _ => c.(told := Some(wake))
  }

  function Next(s: System, step: Step): System
    requires Enabled(s, step)
  {
    match step
    case Append(row) => s.(rows := s.rows + [row], all := s.all + [row])
    case ReadFloor(tick) => s.(ticks := s.ticks[tick := s.floor])
    case Retain(tick, now) =>
      var picked := TickPicks(s.rows, s.ticks[tick], now);
      s.(floor := Max(s.floor, ChainTop(picked)), rows := Keep(s.rows, (r: EventRow) => r !in picked))
    case Read(limit, got) =>
      s.(client := Take(s.client, ReadWake(s.rows, s.floor, s.client.cursor, limit), got))
  }

  function Trace(s: System, steps: seq<Step>): System
    decreases |steps|
  {
    if steps == [] then s
    else if Enabled(s, steps[0]) then Trace(Next(s, steps[0]), steps[1..])
    else Trace(s, steps[1..])
  }

  // ── What every step keeps ────────────────────────────────────────────────

  /** The stored rows are rows ever appended, in order; the last one appended is
      stored; every chain row above the floor is. */
  ghost predicate Whole(s: System) {
    WholeRows(s.all, s.rows, s.floor)
  }

  ghost predicate WholeRows(all: seq<EventRow>, rows: seq<EventRow>, floor: nat) {
    && Ascending(all) && rows == Keep(all, (r: EventRow) => r in rows)
    && (all != [] ==> rows != [] && rows[|rows| - 1] == all[|all| - 1])
    && (forall r :: r in all && r.kind.Chain? && floor < r.cursor ==> r in rows)
  }

  /** The chain rows ever appended in `(lo, hi]`. */
  function ChainRows(all: seq<EventRow>, lo: nat, hi: nat): seq<EventRow> {
    Keep(all, (r: EventRow) => r.kind.Chain? && lo < r.cursor <= hi)
  }

  /** The client holds every chain row between its start and its cursor. */
  ghost predicate Served(s: System) {
    && s.client.start <= s.client.cursor <= Head(s.all)
    && Keep(s.client.received, (r: EventRow) => r.kind.Chain?) == ChainRows(s.all, s.client.start, s.client.cursor)
    && s.client.told != Some(Ahead)
  }

  lemma {:induction false} RowsAscending(s: System)
    requires Whole(s)
    ensures Ascending(s.rows) && Head(s.rows) == Head(s.all)
    ensures forall r :: r in s.rows ==> r in s.all
  {
    KeepAscending(s.all, (r: EventRow) => r in s.rows);
    KeepIn(s.all, (r: EventRow) => r in s.rows);
  }

  /** The head is never picked. */
  lemma {:induction false} HeadNotPicked(rows: seq<EventRow>, read: nat, now: nat)
    requires rows != [] && Ascending(rows)
    ensures rows[|rows| - 1] !in TickPicks(rows, read, now)
  {
    var cutoff := SaturatingSub(now, RETAIN_CHAIN_SECS);
    var young := Keep(rows, (r: EventRow) => read < r.cursor && cutoff <= r.created);
    KeepIn(rows, (r: EventRow) => read < r.cursor && cutoff <= r.created);
    KeepIn(rows, (r: EventRow) => Pickable(rows, read, cutoff, SaturatingSub(now, RETAIN_TIP_AGE_SECS), r));
    if young != [] { assert young[0] in young; }
    assert Young(rows, read, cutoff) <= Head(rows);
  }

  /** No row above the floor read that is young stands below the first such row. */
  lemma {:induction false} YoungIsLow(rows: seq<EventRow>, read: nat, cutoff: nat, r: EventRow)
    requires Ascending(rows) && r in rows && read < r.cursor && cutoff <= r.created
    ensures Young(rows, read, cutoff) <= r.cursor
  {
    var young := Keep(rows, (x: EventRow) => read < x.cursor && cutoff <= x.created);
    KeepIn(rows, (x: EventRow) => read < x.cursor && cutoff <= x.created);
    KeepAscending(rows, (x: EventRow) => read < x.cursor && cutoff <= x.created);
    hide Keep;
    assert r in young;
    var i :| 0 <= i < |young| && young[i] == r;
    assert young[0].cursor <= r.cursor;
  }

  /** A chain row is kept 90 days and a `tipAge` row a day, by the row's own time;
      a row of any other kind is kept; a tick picks at most a thousand rows. */
  lemma {:induction false} OnlyOldPicked(rows: seq<EventRow>, read: nat, now: nat, r: EventRow)
    requires Ascending(rows) && r in TickPicks(rows, read, now)
    ensures |TickPicks(rows, read, now)| <= ROWS_A_TICK
    ensures r in rows && !r.kind.Unknown?
    ensures r.created + (if r.kind.Chain? then RETAIN_CHAIN_SECS else RETAIN_TIP_AGE_SECS) < now
  {
    var cutoff := SaturatingSub(now, RETAIN_CHAIN_SECS);
    KeepIn(rows, (x: EventRow) => Pickable(rows, read, cutoff, SaturatingSub(now, RETAIN_TIP_AGE_SECS), x));
    hide Keep, Young;
    if r.kind.Chain? && cutoff <= r.created {
      YoungIsLow(rows, read, cutoff, r);
    }
  }

  lemma {:induction false} KeepLast(rows: seq<EventRow>, keep: EventRow -> bool)
    requires rows != [] && keep(rows[|rows| - 1])
    ensures Keep(rows, keep) != [] && Keep(rows, keep)[|Keep(rows, keep)| - 1] == rows[|rows| - 1]
  {
  }

  /** Retention keeps the head, and deletes no chain row above the new floor. */
  lemma {:induction false} RetainKeeps(s: System, tick: nat, now: nat)
    requires Whole(s) && Enabled(s, Retain(tick, now))
    ensures Whole(Next(s, Retain(tick, now))) && s.floor <= Next(s, Retain(tick, now)).floor
    ensures Head(Next(s, Retain(tick, now)).rows) == Head(s.rows)
  {
    RowsAscending(s);
    hide TickPicks, Keep, ChainTop, Head, WholeRows, Ascending;
    RetainedHead(s.rows, s.ticks[tick], now);
    RetainedWhole(s.all, s.rows, s.floor, TickPicks(s.rows, s.ticks[tick], now));
  }

  lemma {:induction false} RetainedWhole(all: seq<EventRow>, rows: seq<EventRow>, floor: nat, picked: seq<EventRow>)
    requires WholeRows(all, rows, floor)
    requires var kept := Keep(rows, (r: EventRow) => r !in picked);
             rows != [] ==> kept != [] && kept[|kept| - 1] == rows[|rows| - 1]
    ensures WholeRows(all, Keep(rows, (r: EventRow) => r !in picked), Max(floor, ChainTop(picked)))
  {
    KeepIn(rows, (r: EventRow) => r !in picked);
    hide Keep;
    RetainedRows(all, rows, picked);
    hide ChainTop;
  }

  lemma {:induction false} RetainedHead(rows: seq<EventRow>, read: nat, now: nat)
    requires Ascending(rows)
    ensures var kept := Keep(rows, (r: EventRow) => r !in TickPicks(rows, read, now));
            && Head(kept) == Head(rows) && (rows != [] ==> kept != [] && kept[|kept| - 1] == rows[|rows| - 1])
  {
    if rows != [] {
      HeadNotPicked(rows, read, now);
      hide TickPicks;
      KeepLast(rows, (r: EventRow) => r !in TickPicks(rows, read, now));
    }
  }

  lemma {:induction false} RetainedRows(all: seq<EventRow>, rows: seq<EventRow>, picked: seq<EventRow>)
    requires rows == Keep(all, (r: EventRow) => r in rows)
    ensures var kept := Keep(rows, (r: EventRow) => r !in picked); kept == Keep(all, (r: EventRow) => r in kept)
  {
    var kept := Keep(rows, (r: EventRow) => r !in picked);
    KeepIn(rows, (r: EventRow) => r !in picked);
    hide Keep;
    KeepBoth(all, (r: EventRow) => r in rows, (r: EventRow) => r !in picked, (r: EventRow) => r in kept);
  }

  lemma {:induction false} AppendKeeps(s: System, row: EventRow)
    requires Whole(s) && Enabled(s, Append(row))
    ensures Whole(Next(s, Append(row)))
  {
    hide WholeRows, Head;
    AppendedWhole(s.all, s.rows, s.floor, row);
  }

  lemma {:induction false} AppendedWhole(all: seq<EventRow>, rows: seq<EventRow>, floor: nat, row: EventRow)
    requires WholeRows(all, rows, floor) && Head(all) < row.cursor
    ensures WholeRows(all + [row], rows + [row], floor)
  {
    assert row !in all by {
      if row in all { CursorBelowHead(all, row); }
    }
    AppendedAscending(all, row);
    KeepSnoc(all, row, (r: EventRow) => r in rows + [row]);
    hide Keep, Ascending, Head;
    KeepSame(all, (r: EventRow) => r in rows + [row], (r: EventRow) => r in rows);
  }

  lemma {:induction false} AppendedAscending(all: seq<EventRow>, row: EventRow)
    requires Ascending(all) && Head(all) < row.cursor
    ensures Ascending(all + [row])
  {
    forall i, j | 0 <= i < j < |all| + 1 ensures (all + [row])[i].cursor < (all + [row])[j].cursor {
      CursorBelowHead(all, all[i]);
    }
  }

  lemma {:induction false} CursorBelowHead(rows: seq<EventRow>, row: EventRow)
    requires Ascending(rows) && row in rows
    ensures row.cursor <= Head(rows)
  {
  }

  // ── The page is what the full journal would give ─────────────────────────

  lemma {:induction false} KeepAll(rows: seq<EventRow>, keep: EventRow -> bool)
    requires forall i :: 0 <= i < |rows| ==> keep(rows[i])
    ensures Keep(rows, keep) == rows
  {
    if rows != [] {
      var n := |rows| - 1;
      KeepAll(rows[..n], keep);
      assert rows[..n] + [rows[n]] == rows;
    }
  }

  lemma {:induction false} KeepNone(rows: seq<EventRow>, keep: EventRow -> bool)
    requires forall i :: 0 <= i < |rows| ==> !keep(rows[i])
    ensures Keep(rows, keep) == []
  {
    if rows != [] {
      KeepNone(rows[..|rows| - 1], keep);
    }
  }

  lemma {:induction false} PrefixBelow(rows: seq<EventRow>, k: nat)
    requires Ascending(rows) && 0 < k <= |rows|
    ensures forall x :: x in rows[..k] ==> x.cursor <= rows[k - 1].cursor
    ensures forall x :: x in rows[k..] ==> rows[k - 1].cursor < x.cursor
    ensures rows == rows[..k] + rows[k..]
  {
  }

  /** The first rows of a journal are those up to the last of them. */
  lemma {:induction false} PrefixIsKeep(rows: seq<EventRow>, k: nat)
    requires Ascending(rows) && 0 < k <= |rows|
    ensures rows[..k] == Keep(rows, (r: EventRow) => r.cursor <= rows[k - 1].cursor)
  {
    var p := (r: EventRow) => r.cursor <= rows[k - 1].cursor;
    PrefixBelow(rows, k);
    hide *;
    KeepAppend(rows[..k], rows[k..], p);
    KeepAll(rows[..k], p);
    KeepNone(rows[k..], p);
  }

  lemma {:induction false} ChainSplit(all: seq<EventRow>, lo: nat, mid: nat, hi: nat)
    requires Ascending(all) && lo <= mid <= hi
    ensures ChainRows(all, lo, hi) == ChainRows(all, lo, mid) + ChainRows(all, mid, hi)
  {
    if all != [] {
      var n := |all| - 1;
      if all[n].cursor <= mid {
        forall i | 0 <= i < |all| ensures all[i].cursor <= mid { CursorBelowHead(all, all[i]); }
        KeepNone(all, (r: EventRow) => r.kind.Chain? && mid < r.cursor <= hi);
        KeepSame(all, (r: EventRow) => r.kind.Chain? && lo < r.cursor <= hi,
                 (r: EventRow) => r.kind.Chain? && lo < r.cursor <= mid);
      } else {
        ChainSplit(all[..n], lo, mid, hi);
      }
    }
  }

  /** The chain rows of the rows a page starts with, from a cursor at or above
      the floor, are those of the full journal. */
  lemma {:induction false} PageIsWhole(s: System, since: nat, k: nat)
    requires Whole(s) && s.floor <= since
    requires var above := Keep(s.rows, (r: EventRow) => since < r.cursor); 0 < k <= |above|
    ensures var above := Keep(s.rows, (r: EventRow) => since < r.cursor);
            && since < above[k - 1].cursor <= Head(s.all)
            && Keep(above[..k], (r: EventRow) => r.kind.Chain?) == ChainRows(s.all, since, above[k - 1].cursor)
  {
    var above := Keep(s.rows, (r: EventRow) => since < r.cursor);
    RowsAscending(s);
    KeepIn(s.rows, (r: EventRow) => since < r.cursor);
    KeepAscending(s.rows, (r: EventRow) => since < r.cursor);
    var last := above[k - 1];
    assert last in above;
    CursorBelowHead(s.all, last);
    PrefixIsKeep(above, k);
    PageRows(s, since, above, last.cursor);
  }

  lemma {:induction false} PageRows(s: System, since: nat, above: seq<EventRow>, hi: nat)
    requires Whole(s) && s.floor <= since && above == Keep(s.rows, (r: EventRow) => since < r.cursor)
    ensures Keep(Keep(above, (r: EventRow) => r.cursor <= hi), (r: EventRow) => r.kind.Chain?)
         == ChainRows(s.all, since, hi)
  {
    hide Keep, Ascending, Head;
    var upTo := (r: EventRow) => r.cursor <= hi;
    var chain := (r: EventRow) => r.kind.Chain?;
    var stored := (r: EventRow) => r in s.rows;
    KeepBoth(above, upTo, chain, (r: EventRow) => r.cursor <= hi && r.kind.Chain?);
    KeepBoth(s.rows, (r: EventRow) => since < r.cursor, (r: EventRow) => r.cursor <= hi && r.kind.Chain?,
             (r: EventRow) => r.kind.Chain? && since < r.cursor <= hi);
    KeepBoth(s.all, stored, (r: EventRow) => r.kind.Chain? && since < r.cursor <= hi,
             (r: EventRow) => r.kind.Chain? && since < r.cursor <= hi);
  }

  // ── Every run ────────────────────────────────────────────────────────────

  /** What a read does to the client: it takes in the first `k` rows above its
      cursor, or is told something. */
  lemma {:induction false} ReadShape(s: System, limit: nat, got: nat) returns (k: nat)
    requires Enabled(s, Read(limit, got))
    ensures var c := s.client;
            var e := Next(s, Read(limit, got));
            var above := Keep(s.rows, (r: EventRow) => c.cursor < r.cursor);
            && e == s.(client := e.client) && e.client.start == c.start && k <= |above|
            && e.client.received == c.received + above[..k]
            && e.client.cursor == (if k == 0 then c.cursor else above[k - 1].cursor)
            && (0 < k ==> s.floor <= c.cursor)
            && (c.cursor <= Head(s.rows) ==> e.client.told == c.told || (e.client.told.Some? && e.client.told.value.Expired?))
  {
    var c := s.client;
    var above := Keep(s.rows, (r: EventRow) => c.cursor < r.cursor);
    hide Keep;
    var events := above[..Min(|above|, limit)];
    if Head(s.rows) < c.cursor || c.cursor < s.floor {
      k := 0;
      assert c.received + above[..0] == c.received;
    } else {
      k := Min(|events|, got);
      assert events[..k] == above[..k];
    }
  }

  lemma {:induction false} ReadKeeps(s: System, limit: nat, got: nat)
    requires Whole(s) && Served(s) && Enabled(s, Read(limit, got))
    ensures Whole(Next(s, Read(limit, got))) && Served(Next(s, Read(limit, got)))
  {
    var c := s.client;
    RowsAscending(s);
    var k := ReadShape(s, limit, got);
    var above := Keep(s.rows, (r: EventRow) => c.cursor < r.cursor);
    hide Keep, Ascending, Next, Head;
    KeepAppend(c.received, above[..k], (r: EventRow) => r.kind.Chain?);
    if 0 < k {
      PageIsWhole(s, c.cursor, k);
      ChainSplit(s.all, c.start, c.cursor, above[k - 1].cursor);
    } else {
      assert c.received + above[..0] == c.received;
    }
  }

  lemma {:induction false} AppendServed(s: System, row: EventRow)
    requires Whole(s) && Served(s) && Enabled(s, Append(row))
    ensures Served(Next(s, Append(row)))
  {
    hide Ascending;
    KeepSnoc(s.all, row, (r: EventRow) => r.kind.Chain? && s.client.start < r.cursor <= s.client.cursor);
  }

  lemma {:induction false} StepKeeps(s: System, step: Step)
    requires Whole(s) && Served(s) && Enabled(s, step)
    ensures Whole(Next(s, step)) && Served(Next(s, step)) && s.floor <= Next(s, step).floor
  {
    hide Keep, Ascending;
    match step {
      case Append(row) => AppendKeeps(s, row); AppendServed(s, row);
      case ReadFloor(_) =>
      case Retain(tick, now) => RetainKeeps(s, tick, now); hide TickPicks, ChainTop, Whole;
      case Read(limit, got) => ReadKeeps(s, limit, got);
    }
  }

  /** For every interleaving the client has received every chain row between its
      start and its cursor exactly once and in order, unless it was told its
      cursor expired; the floor never falls and the last row ever appended is
      stored. */
  lemma {:induction false} ReplayHasNoGap(s: System, steps: seq<Step>)
    requires Whole(s) && Served(s)
    ensures var e := Trace(s, steps);
            && s.floor <= e.floor && e.client.start == s.client.start
            && Keep(e.client.received, (r: EventRow) => r.kind.Chain?) == ChainRows(e.all, e.client.start, e.client.cursor)
            && Ascending(ChainRows(e.all, e.client.start, e.client.cursor))
            && (e.client.told.Some? ==> e.client.told.value.Expired? || e.client.told == s.client.told)
            && Head(e.rows) == Head(e.all)
    decreases |steps|
  {
    if steps == [] {
      KeepAscending(s.all, (r: EventRow) => r.kind.Chain? && s.client.start < r.cursor <= s.client.cursor);
      RowsAscending(s);
    } else if Enabled(s, steps[0]) {
      StepKeeps(s, steps[0]);
      StepTold(s, steps[0]);
      hide Whole, Served, Next, Enabled, Keep, Ascending, ChainRows, Head;
      ReplayHasNoGap(Next(s, steps[0]), steps[1..]);
    } else {
      hide Whole, Served, Next, Enabled, Keep, Ascending, ChainRows, Head;
      ReplayHasNoGap(s, steps[1..]);
    }
  }

  /** A client whose cursor is not ahead is told nothing but that it expired. */
  lemma {:induction false} StepTold(s: System, step: Step)
    requires Whole(s) && Served(s) && Enabled(s, step)
    ensures var c := Next(s, step).client;
            && c.start == s.client.start
            && (c.told == s.client.told || (c.told.Some? && c.told.value.Expired?))
  {
    RowsAscending(s);
    hide Keep, Ascending, Whole, TickPicks, ChainTop;
  }

  /** An empty journal and a client that has not asked. */
  const EMPTY := System([], 0, [], map[], Client(0, 0, [], None))

  lemma {:induction false} Joined(s: System, start: nat)
    requires Whole(s) && start <= Head(s.all)
    ensures Served(s.(client := Client(start, start, [], None)))
    ensures Whole(s.(client := Client(start, start, [], None)))
  {
    KeepNone(s.all, (r: EventRow) => r.kind.Chain? && start < r.cursor <= start);
  }

  lemma {:induction false} TraceKeeps(s: System, steps: seq<Step>)
    requires Whole(s) && Served(s)
    ensures Whole(Trace(s, steps)) && Served(Trace(s, steps))
    decreases |steps|
  {
    hide Whole, Served, Next, Enabled;
    if steps != [] {
      if Enabled(s, steps[0]) {
        StepKeeps(s, steps[0]);
        TraceKeeps(Next(s, steps[0]), steps[1..]);
      } else {
        TraceKeeps(s, steps[1..]);
      }
    }
  }

  /** A client that starts at any cursor of a journal with any past, whatever
      happens then. */
  lemma {:induction false} AnyClientAnyRun(before: seq<Step>, start: nat, after: seq<Step>)
    requires start <= Head(Trace(EMPTY, before).all)
    ensures var joined := Trace(EMPTY, before).(client := Client(start, start, [], None));
            var e := Trace(joined, after);
            && Keep(e.client.received, (r: EventRow) => r.kind.Chain?) == ChainRows(e.all, start, e.client.cursor)
            && Ascending(ChainRows(e.all, start, e.client.cursor))
            && (e.client.told.Some? ==> e.client.told.value.Expired?)
  {
    assert Whole(EMPTY) && Served(EMPTY);
    TraceKeeps(EMPTY, before);
    Joined(Trace(EMPTY, before), start);
    hide Whole, Served, Trace, Keep, Ascending, Head, ChainRows;
    ReplayHasNoGap(Trace(EMPTY, before).(client := Client(start, start, [], None)), after);
  }
}
