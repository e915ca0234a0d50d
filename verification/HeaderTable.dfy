/** The `headers` table and the statements that write it. A row's id is its
    position, so the newest ingest is the last row; rows are never deleted. */
module HeaderTable {
  import opened Wrappers
  import opened Headers

  datatype Row = Row(h: Header, link: Option<nat>, active: bool, tip: bool, work: nat)

  /** The table and the pending fork of `sync_state`. */
  datatype Db = Db(rows: seq<Row>, pending: Option<nat>)

  const EMPTY := Db([], None)

  function Heads(t: seq<Row>): (hs: seq<Header>)
    ensures |hs| == |t|
    ensures forall i :: 0 <= i < |t| ==> hs[i] == t[i].h
  {
    seq(|t|, i requires 0 <= i < |t| => t[i].h)
  }

  lemma {:induction false} HeadAt(t: seq<Row>, i: nat)
    requires i < |t|
    ensures i < |Heads(t)| && Heads(t)[i] == t[i].h
  {
  }

  // ── Stored ancestry by hash ──────────────────────────────────────────────

  /** Hashes name one header each, and a header's height is one above its
      parent's (the claimed heights are the true ones). */
  ghost predicate Sound(hs: seq<Header>)
    decreases |hs|
  {
    hs == [] || (Sound(hs[..|hs| - 1]) && Fits(hs[..|hs| - 1], hs[|hs| - 1]))
  }

  /** A header that may join the stored ones. */
  ghost predicate Fits(hs: seq<Header>, n: Header) {
    && n.hash != ZERO_HASH && n.prev != n.hash
    && forall i :: 0 <= i < |hs| ==>
         && hs[i].hash != n.hash
         && (n.prev == hs[i].hash ==> n.height == hs[i].height + 1)
         && (hs[i].prev == n.hash ==> hs[i].height == n.height + 1)
  }

  lemma {:induction false} SoundAppend(hs: seq<Header>, n: Header)
    ensures Sound(hs + [n]) <==> Sound(hs) && Fits(hs, n)
  {
    assert (hs + [n])[..|hs|] == hs;
  }

  /** What soundness says of two rows. */
  lemma {:induction false} SoundPair(hs: seq<Header>, i: nat, j: nat)
    requires Sound(hs) && i < |hs| && j < |hs|
    ensures hs[i].hash != ZERO_HASH
    ensures hs[i].hash == hs[j].hash ==> i == j
    ensures hs[i].prev == hs[j].hash ==> hs[i].height == hs[j].height + 1
    decreases |hs|
  {
    var n := |hs| - 1;
    if i < n && j < n {
      SoundPair(hs[..n], i, j);
    } else if i < n {
      SoundPair(hs[..n], i, i);
    } else if j < n {
      SoundPair(hs[..n], j, j);
    }
  }

  /** The row with a hash (the hash column is UNIQUE). */
  function Find(hs: seq<Header>, hash: Hash): (r: Option<nat>)
    ensures r.Some? ==> r.value < |hs| && hs[r.value].hash == hash
    ensures r.None? ==> forall i :: 0 <= i < |hs| ==> hs[i].hash != hash
  {
    if hs == [] then None
    else if hs[|hs| - 1].hash == hash then Some(|hs| - 1)
    else Find(hs[..|hs| - 1], hash)
  }

  lemma {:induction false} FindIs(hs: seq<Header>, k: nat, hash: Hash)
    requires Sound(hs) && k < |hs| && hs[k].hash == hash
    ensures Find(hs, hash) == Some(k)
  {
    SoundPair(hs, Find(hs, hash).value, k);
  }

  /** The stored parent of a row: the row with the hash it names. */
  function Parent(hs: seq<Header>, i: nat): (r: Option<nat>)
    requires i < |hs|
    ensures r.Some? ==> r.value < |hs| && hs[r.value].hash == hs[i].prev
    ensures r.None? ==> hs[i].prev == ZERO_HASH || forall j :: 0 <= j < |hs| ==> hs[j].hash != hs[i].prev
  {
    if hs[i].prev == ZERO_HASH then None else Find(hs, hs[i].prev)
  }

  /** The stored ancestry of a row by hash, the row first. */
  ghost function Path(hs: seq<Header>, i: nat): (p: seq<nat>)
    requires Sound(hs) && i < |hs|
    ensures |p| > 0 && p[0] == i
    ensures forall k :: 0 <= k < |p| ==> p[k] < |hs| && hs[p[k]].height + k == hs[i].height
    decreases hs[i].height
  {
    match Parent(hs, i)
    case None => [i]
    case Some(q) => SoundPair(hs, i, q); [i] + Path(hs, q)
  }

  /** The ancestry of an ancestor is the rest of the path. */
  lemma {:induction false} PathTail(hs: seq<Header>, i: nat, k: nat)
    requires Sound(hs) && i < |hs| && k < |Path(hs, i)|
    ensures Path(hs, Path(hs, i)[k]) == Path(hs, i)[k..]
    decreases k
  {
    if k > 0 {
      var q := Parent(hs, i).value;
      PathTail(hs, q, k - 1);
      assert Path(hs, i)[k..] == Path(hs, q)[k - 1..];
    }
  }

  /** An ancestor stands in the path at its depth. */
  lemma {:induction false} PathAt(hs: seq<Header>, i: nat, j: nat)
    requires Sound(hs) && i < |hs| && j in Path(hs, i)
    ensures j < |hs| && hs[j].height <= hs[i].height
    ensures hs[i].height - hs[j].height < |Path(hs, i)|
    ensures Path(hs, i)[hs[i].height - hs[j].height] == j
    ensures Path(hs, j) == Path(hs, i)[hs[i].height - hs[j].height..]
  {
    var k :| 0 <= k < |Path(hs, i)| && Path(hs, i)[k] == j;
    PathTail(hs, i, k);
  }

  lemma {:induction false} PathMono(hs: seq<Header>, i: nat, j: nat)
    requires Sound(hs) && i < |hs| && j in Path(hs, i)
    ensures j < |hs| && forall k :: k in Path(hs, j) ==> k in Path(hs, i)
  {
    PathAt(hs, i, j);
  }

  /** The last row of a path has no stored parent; every other row's parent is
      the next row of the path. */
  lemma {:induction false} PathStep(hs: seq<Header>, i: nat, j: nat)
    requires Sound(hs) && i < |hs| && j in Path(hs, i)
    ensures j < |hs|
    ensures Parent(hs, j).Some? ==> Parent(hs, j).value in Path(hs, i)
    ensures Parent(hs, j).None? ==> j == Path(hs, i)[|Path(hs, i)| - 1]
  {
    PathAt(hs, i, j);
    var d := hs[i].height - hs[j].height;
    match Parent(hs, j) {
      case None => assert Path(hs, j) == [j]; assert |Path(hs, i)| == d + 1;
      case Some(q) => assert Path(hs, j)[1] == q; assert Path(hs, i)[d + 1] == q;
    }
  }

  /** Appending a row that no row of a path names as its parent keeps the path. */
  lemma {:induction false} PathAppend(hs: seq<Header>, n: Header, i: nat)
    requires Sound(hs) && Sound(hs + [n]) && i < |hs|
    requires forall j :: j in Path(hs, i) ==> hs[j].prev != n.hash
    ensures Path(hs + [n], i) == Path(hs, i)
    decreases hs[i].height
  {
    var all := hs + [n];
    assert hs[i].prev != n.hash by { assert i in Path(hs, i); }
    match Parent(hs, i) {
      case None => assert Parent(all, i).None?;
      case Some(q) =>
        SoundPair(hs, i, q);
        SoundPair(all, q, |hs|);
        assert Parent(all, i) == Some(q);
        assert forall j :: j in Path(hs, q) ==> j in Path(hs, i);
        PathAppend(hs, n, q);
    }
  }

  // ── Reads ────────────────────────────────────────────────────────────────

  /** The row a filter keeps that is highest, then newest
      (`ORDER BY height DESC, header_id DESC LIMIT 1`). */
  ghost predicate Highest(t: seq<Row>, keep: Row -> bool, r: Option<nat>) {
    match r
    case None => forall i :: 0 <= i < |t| ==> !keep(t[i])
    case Some(k) =>
      && k < |t| && keep(t[k])
      && forall i :: 0 <= i < |t| && keep(t[i]) ==>
           t[i].h.height < t[k].h.height || (t[i].h.height == t[k].h.height && i <= k)
  }

  function FirstOf(t: seq<Row>, keep: Row -> bool): (r: Option<nat>)
    ensures Highest(t, keep, r)
  {
    if t == [] then None
    else
      var n := |t| - 1;
      var r := FirstOf(t[..n], keep);
      if keep(t[n]) && (r.None? || t[r.value].h.height <= t[n].h.height) then Some(n) else r
  }

  /** `find_chain_tip` (src/storage.rs:78-80). */
  function ChainTip(t: seq<Row>): (r: Option<nat>)
    ensures Highest(t, (r: Row) => r.tip, r)
  {
    FirstOf(t, (r: Row) => r.tip)
  }

  /** `sql_highest_active_header` (src/storage.rs:99-101). */
  function HighestActive(t: seq<Row>): (r: Option<nat>)
    ensures Highest(t, (r: Row) => r.active, r)
  {
    FirstOf(t, (r: Row) => r.active)
  }

  predicate ActiveAt(t: seq<Row>, i: nat, height: nat) {
    i < |t| && t[i].active && t[i].h.height == height
  }

  predicate SomeAt(t: seq<Row>, height: nat) {
    exists i: nat :: i < |t| && ActiveAt(t, i, height)
  }

  /** The unbroken active ancestry of a row: the row, then every stored parent
      that is active, down to the first that is not. */
  ghost function Unbroken(t: seq<Row>, i: nat): (r: seq<nat>)
    requires Sound(Heads(t)) && i < |t|
    ensures |r| > 0 && r[0] == i
    ensures forall k :: 0 <= k < |r| ==> r[k] < |t| && t[r[k]].h.height + k == t[i].h.height
    ensures forall k :: 0 < k < |r| ==> t[r[k]].active
    decreases t[i].h.height
  {
    match Parent(Heads(t), i)
    case Some(q) =>
      SoundPair(Heads(t), i, q);
      if t[q].active then [i] + Unbroken(t, q) else [i]
    case None => [i]
  }

  // ── Statements ───────────────────────────────────────────────────────────

  /** The write statements of src/storage.rs (170-244 and 895-897) and the
      compare-and-set clear of the pending fork
      (src/statement_pins.rs:133-134). */
  datatype Stmt =
    | Insert(row: Row)
    | ClearChainTip
    | SetChainTipActive(hash: Hash)
    | SetChainTip(hash: Hash)
    | DeactivateAbove(floor: nat)
    | Activate(hash: Hash)
    | RelinkHeader(id: nat, parent: nat, work: nat)
    | ActivateStored(stored: Hash, work: nat, height: nat)
    | CanonicalizeHeight(hash: Hash, height: nat)
    | LinkChild(parentHash: Hash, childHash: Hash)
    | LinkSpan(lo: nat, hi: nat)
    | DedupeHeight(height: nat)
    | RecordPending(fork: nat)
    | ClearPending(fork: nat)

  /** The row the sweep keeps at a height (src/storage.rs:237-244): the newest
      active row an active row of the next height names as its parent, or, when
      none is so named, the newest active row. */
  predicate Named(t: seq<Row>, i: nat)
    requires i < |t|
  {
    exists c :: 0 <= c < |t| && t[c].active && t[c].h.height == t[i].h.height + 1 && t[c].h.prev == t[i].h.hash
  }

  predicate Kept(t: seq<Row>, height: nat, k: nat) {
    && k < |t| && t[k].active && t[k].h.height == height
    && (|| (Named(t, k) && forall i :: k < i < |t| && t[i].active && t[i].h.height == height ==> !Named(t, i))
        || (forall i :: 0 <= i < |t| && t[i].active && t[i].h.height == height ==> i <= k && !Named(t, i)))
  }

  /** Row `i` after a statement that only updates rows. */
  function Touch(s: Stmt, t: seq<Row>, i: nat): (r: Row)
    requires i < |t|
    ensures r.h == t[i].h
  {
    var r := t[i];
    match s
    case ClearChainTip => r.(tip := false)
    case SetChainTipActive(x) => if r.h.hash == x then r.(tip := true, active := true) else r
    case SetChainTip(x) => if r.h.hash == x then r.(tip := true) else r
    case DeactivateAbove(floor) =>
      if floor < r.h.height && r.active then r.(active := false, tip := false) else r
    case Activate(x) => if r.h.hash == x then r.(active := true) else r
    case RelinkHeader(id, parent, work) => if i == id then r.(link := Some(parent), work := work) else r
    case ActivateStored(x, work, height) =>
      if r.h.hash == x && !r.active && forall o :: 0 <= o < |t| && t[o].active ==> t[o].h.height != height
      then r.(active := true, work := work) else r
    case CanonicalizeHeight(x, height) => if r.h.height == height then r.(active := r.h.hash == x) else r
    case LinkChild(x, child) => if r.h.hash == child then r.(link := Find(Heads(t), x)) else r
    case LinkSpan(lo, hi) =>
      if r.active && r.link.None? && lo <= r.h.height <= hi then r.(link := Find(Heads(t), r.h.prev)) else r
    case DedupeHeight(height) =>
      if r.h.height == height && r.active && !Kept(t, height, i) then r.(active := false) else r
    case _ => r
  }

  /** The most statements of one batch (src/d1.rs:266-269). */
  const CHUNK := 100

  /** One statement. `Insert` is `INSERT OR IGNORE` on the unique hash. */
  function Exec(db: Db, s: Stmt): (r: Db)
    ensures !s.Insert? ==> |r.rows| == |db.rows| && Heads(r.rows) == Heads(db.rows)
  {
    match s
    case Insert(row) => if Find(Heads(db.rows), row.h.hash).Some? then db else db.(rows := db.rows + [row])
    case RecordPending(fork) =>
      db.(pending := if db.pending.None? || fork < db.pending.value then Some(fork) else db.pending)
    case ClearPending(fork) => db.(pending := if db.pending == Some(fork) then None else db.pending)
    case _ => db.(rows := seq(|db.rows|, i requires 0 <= i < |db.rows| => Touch(s, db.rows, i)))
  }

  /** Statements in order: one batch, or several. */
  function Run(db: Db, stmts: seq<Stmt>): Db
    decreases |stmts|
  {
    if stmts == [] then db else Run(Exec(db, stmts[0]), stmts[1..])
  }

  lemma {:induction false} RunAppend(db: Db, a: seq<Stmt>, b: seq<Stmt>)
    ensures Run(db, a + b) == Run(Run(db, a), b)
    decreases |a|
  {
    if a == [] {
      assert a + b == b;
    } else {
      assert (a + b)[1..] == a[1..] + b;
      RunAppend(Exec(db, a[0]), a[1..], b);
    }
  }

  lemma {:induction false} RunNone(db: Db)
    ensures Run(db, []) == db
  {
  }

  lemma {:induction false} RunOne(db: Db, a: Stmt)
    ensures Run(db, [a]) == Exec(db, a)
  {
    assert [a][1..] == [];
    assert Run(Exec(db, a), []) == Exec(db, a);
  }

  lemma {:induction false} RunTwo(db: Db, a: Stmt, b: Stmt)
    ensures Run(db, [a, b]) == Exec(Exec(db, a), b)
  {
    RunOne(Exec(db, a), b);
    assert [a, b][1..] == [b];
  }

  lemma {:induction false} RunThree(db: Db, a: Stmt, b: Stmt, c: Stmt)
    ensures Run(db, [a, b, c]) == Exec(Exec(Exec(db, a), b), c)
  {
    RunTwo(Exec(db, a), b, c);
    assert [a, b, c][1..] == [b, c];
  }

  /** The state after every transaction. */
  ghost function RunAll(db: Db, txs: seq<seq<Stmt>>): Db
    decreases |txs|
  {
    if txs == [] then db else RunAll(Run(db, txs[0]), txs[1..])
  }

  lemma {:induction false} RunAllNone(db: Db)
    ensures RunAll(db, []) == db
  {
  }

  lemma {:induction false} RunAllOne(db: Db, tx: seq<Stmt>)
    ensures RunAll(db, [tx]) == Run(db, tx)
  {
    assert [tx][1..] == [];
  }

  lemma {:induction false} RunAllCons(db: Db, tx: seq<Stmt>, rest: seq<seq<Stmt>>)
    ensures RunAll(db, [tx] + rest) == RunAll(Run(db, tx), rest)
  {
    assert ([tx] + rest)[1..] == rest;
  }

  lemma {:induction false} RunAllAppend(db: Db, a: seq<seq<Stmt>>, b: seq<seq<Stmt>>)
    ensures RunAll(db, a + b) == RunAll(RunAll(db, a), b)
    decreases |a|
  {
    if a == [] {
      assert a + b == b;
    } else {
      assert (a + b)[0] == a[0] && (a + b)[1..] == a[1..] + b;
      RunAllAppend(Run(db, a[0]), a[1..], b);
    }
  }
}
