/** The printer and the incremental parser of the event stream
    (src/events.rs:561-572, 591-611, 656-666; src/sse.rs:33-123; HTML Living Standard,
    section 9.2.6). A byte and the character it stands for are one here. */
module EventStream {
  import opened Decimals
  import opened Wrappers

  /** One dispatched event, or a comment. */
  datatype Item = Comment | Event(id: Option<string>, event: string, data: string)

  /** The parser between chunks: the bytes of the line begun, and the fields of
      the event begun. */
  datatype State = State(pending: string, data: seq<string>, event: Option<string>, id: Option<string>, hasFields: bool)

  const IDLE := State("", [], None, None, false)

  /** A longer line with no end is the peer's fault (src/sse.rs:62). */
  const MAX_LINE := 64 * 1024

  // ── Lines ────────────────────────────────────────────────────────────────

  function IndexOf(s: string, c: char): (r: Option<nat>)
    ensures r.Some? ==> r.value < |s| && s[r.value] == c && c !in s[..r.value]
    ensures r.None? ==> c !in s
  {
    if s == "" then None
    else if s[0] == c then Some(0)
    else
      match IndexOf(s[1..], c)
      case None => None
      case Some(i) => assert s[..i + 1] == [s[0]] + s[1..][..i]; Some(i + 1)
  }

  /** A line without the CR of a CRLF. */
  function Chomp(line: string): string {
    if line != "" && line[|line| - 1] == '\r' then line[..|line| - 1] else line
  }

  /** `strip_prefix(' ')`, once. */
  function StripSpace(s: string): string {
    if s != "" && s[0] == ' ' then s[1..] else s
  }

  function Join(lines: seq<string>): string {
    if |lines| == 0 then ""
    else if |lines| == 1 then lines[0] else lines[0] + "\n" + Join(lines[1..])
  }

  /** The field and the value of a line, split at the first colon. */
  function FieldOf(line: string): (string, string) {
    match IndexOf(line, ':')
    case Some(i) => (line[..i], StripSpace(line[i + 1..]))
    case None => (line, "")
  }

  /** `Parser::line` (src/sse.rs:88-122). */
  function Line(s: State, line: string): (State, Option<Item>) {
    if line == "" then
      if !s.hasFields then (s, None)
      else
        (State(s.pending, [], None, None, false),
         Some(Event(s.id, if s.event.Some? then s.event.value else "message", Join(s.data))))
    else if line[0] == ':' then (s, Some(Comment))
    else
      var (field, value) := FieldOf(line);
      if field == "data" then (s.(data := s.data + [value], hasFields := true), None)
      else if field == "event" then (s.(event := Some(value), hasFields := true), None)
      else if field == "id" && '\0' !in value then (s.(id := Some(value), hasFields := true), None)
      else (s, None)
  }

  /** The lines that have an end, read one after another. */
  function Drain(s: State): (r: (State, seq<Item>))
    decreases |s.pending|
  {
    match IndexOf(s.pending, '\n')
    case None => (s, [])
    case Some(end) =>
      var (s1, item) := Line(s.(pending := s.pending[end + 1..]), Chomp(s.pending[..end]));
      assert s1.pending == s.pending[end + 1..];
      var (s2, items) := Drain(s1);
      (s2, Listed(item) + items)
  }

  /** `Parser::feed` (src/sse.rs:65-86): the items of a chunk, or the fault. */
  function Feed(s: State, chunk: string): (State, Option<seq<Item>>) {
    var (after, items) := Drain(s.(pending := s.pending + chunk));
    (after, if MAX_LINE < |after.pending| then None else Some(items))
  }

  /** The parser as the source holds it. */
  class Parser {
    var pending: string
    var data: seq<string>
    var event: Option<string>
    var id: Option<string>
    var hasFields: bool

    function Contents(): State
      reads this
    {
      State(pending, data, event, id, hasFields)
    }

    constructor ()
      ensures Contents() == IDLE
    {
      pending, data, event, id, hasFields := "", [], None, None, false;
    }

    method ReadLine(line: string) returns (item: Option<Item>)
      modifies this
      ensures (Contents(), item) == Line(old(Contents()), line)
    {
      if line == "" {
        if !hasFields { return None; }
        hasFields := false;
        item := Some(Event(id, if event.Some? then event.value else "message", Join(data)));
        id, event, data := None, None, [];
        return;
      }
      if line[0] == ':' { return Some(Comment); }
      var (field, value) := FieldOf(line);
      if field == "data" {
        data := data + [value];
        hasFields := true;
      } else if field == "event" {
        event := Some(value);
        hasFields := true;
      } else if field == "id" && '\0' !in value {
        id := Some(value);
        hasFields := true;
      }
      item := None;
    }

    method Take(chunk: string) returns (r: Option<seq<Item>>)
      modifies this
      ensures (Contents(), r) == Feed(old(Contents()), chunk)
    {
      pending := pending + chunk;
      ghost var begun := Contents();
      var out := [];
      var end := IndexOf(pending, '\n');
      assert out + Drain(begun).1 == Drain(begun).1;
      while end.Some?
        invariant end == IndexOf(pending, '\n')
        invariant Drain(begun).0 == Drain(Contents()).0
        invariant Drain(begun).1 == out + Drain(Contents()).1
        decreases |pending|
      {
        ghost var before := Contents();
        DrainStep(before);
        var line := Chomp(pending[..end.value]);
        pending := pending[end.value + 1..];
        var item := ReadLine(line);
        SplitItems(out, Listed(item), Drain(Contents()).1);
        out := out + Listed(item);
        end := IndexOf(pending, '\n');
      }
      assert Drain(Contents()) == (Contents(), []);
      assert out + [] == out;
      assert begun == old(Contents()).(pending := old(Contents()).pending + chunk);
      if |pending| > MAX_LINE { return None; }
      r := Some(out);
    }
  }

  function Listed(item: Option<Item>): seq<Item> {
    if item.Some? then [item.value] else []
  }

  /** One line read of a text that has an end of line. */
  lemma {:induction false} DrainStep(s: State)
    requires IndexOf(s.pending, '\n').Some?
    ensures var end := IndexOf(s.pending, '\n').value;
            var (s1, item) := Line(s.(pending := s.pending[end + 1..]), Chomp(s.pending[..end]));
            && s1.pending == s.pending[end + 1..]
            && Drain(s) == (Drain(s1).0, Listed(item) + Drain(s1).1)
  {
    var end := IndexOf(s.pending, '\n').value;
    var rest := s.pending[end + 1..];
    LineKeepsPending(s, rest, rest, Chomp(s.pending[..end]));
    hide IndexOf, Line, Chomp;
  }

  lemma {:induction false} DrainStop(s: State)
    requires IndexOf(s.pending, '\n').None?
    ensures Drain(s) == (s, [])
  {
  }

  // ── Chunks ───────────────────────────────────────────────────────────────

  function Concat(chunks: seq<string>): string {
    if chunks == [] then "" else chunks[0] + Concat(chunks[1..])
  }

  /** The chunks fed one after another, up to a fault. */
  function FeedAll(s: State, chunks: seq<string>): Option<(State, seq<Item>)>
    decreases |chunks|
  {
    if chunks == [] then Some((s, []))
    else
      var (s1, items) := Feed(s, chunks[0]);
      if items.None? then None
      else
        match FeedAll(s1, chunks[1..])
        case None => None
        case Some(rest) => Some((rest.0, items.value + rest.1))
  }

  /** Reading a text is reading its first part, then the second. */
  lemma {:induction false} DrainSplit(s: State, a: string, b: string)
    ensures var (s1, i1) := Drain(s.(pending := a));
            var (s2, i2) := Drain(s1.(pending := s1.pending + b));
            Drain(s.(pending := a + b)) == (s2, i1 + i2)
    decreases |a|
  {
    match IndexOf(a, '\n') {
      case None =>
        assert [] + Drain(s.(pending := a + b)).1 == Drain(s.(pending := a + b)).1;
      case Some(end) =>
        FirstIndex(a, b, '\n', end);
        assert (a + b)[..end] == a[..end];
        assert (a + b)[end + 1..] == a[end + 1..] + b;
        var (s1, item) := Line(s.(pending := a[end + 1..]), Chomp(a[..end]));
        LineKeepsPending(s, a[end + 1..], a[end + 1..] + b, Chomp(a[..end]));
        hide Line, IndexOf;
        DrainSplit(s1, a[end + 1..], b);
        SplitItems(Listed(item), Drain(s1).1,
                   Drain(Drain(s1).0.(pending := Drain(s1).0.pending + b)).1);
    }
  }

  lemma {:induction false} SplitItems(a: seq<Item>, b: seq<Item>, c: seq<Item>)
    ensures a + (b + c) == (a + b) + c
  {
  }

  lemma {:induction false} FirstIndex(a: string, b: string, c: char, end: nat)
    requires IndexOf(a, c) == Some(end)
    ensures IndexOf(a + b, c) == Some(end)
    decreases |a|
  {
    assert (a + b)[0] == a[0];
    if a[0] != c {
      assert (a + b)[1..] == a[1..] + b;
      FirstIndex(a[1..], b, c, end - 1);
    }
  }

  /** A line is read without looking at the bytes that follow it. */
  lemma {:induction false} LineKeepsPending(s: State, p: string, q: string, line: string)
    ensures Line(s.(pending := q), line) ==
              (Line(s.(pending := p), line).0.(pending := q), Line(s.(pending := p), line).1)
    ensures Line(s.(pending := p), line).0.pending == p
  {
  }

  /** The text after the last end of line. */
  ghost predicate TailOf(text: string, p: string) {
    && '\n' !in p && |p| <= |text| && text[|text| - |p|..] == p
    && (|p| < |text| ==> text[|text| - |p| - 1] == '\n')
  }

  /** What stays pending is that text. */
  lemma {:induction false} PendingIsTail(s: State)
    ensures TailOf(s.pending, Drain(s).0.pending)
    decreases |s.pending|
  {
    if IndexOf(s.pending, '\n').Some? {
      hide *;
      var end := IndexOf(s.pending, '\n').value;
      DrainStep(s);
      PendingIsTail(Line(s.(pending := s.pending[end + 1..]), Chomp(s.pending[..end])).0);
      TailOfTail(s.pending, end, Drain(s).0.pending);
    } else {
      hide IndexOf, Line;
      assert s.pending[0..] == s.pending;
    }
  }

  lemma {:induction false} TailOfTail(text: string, end: nat, p: string)
    requires end < |text| && text[end] == '\n' && TailOf(text[end + 1..], p)
    ensures TailOf(text, p)
  {
  }

  /** Every stretch with no end of line fits. */
  ghost predicate Fits(text: string) {
    forall i, j {:trigger text[i..j]} :: 0 <= i <= j <= |text| && '\n' !in text[i..j] ==> j - i <= 65536
  }

  /** Any way of cutting a text whose lines fit into feeds reads it as one. */
  lemma {:induction false} AnyCuttingReadsAlike(s: State, before: string, chunks: seq<string>)
    requires '\n' !in s.pending && Fits(before + s.pending + Concat(chunks))
    ensures FeedAll(s, chunks) == Some(Drain(s.(pending := s.pending + Concat(chunks))))
    decreases |chunks|
  {
    if chunks == [] {
      FeedNone(s);
    } else {
      FeedFirst(s, chunks);
      hide *;
      var s1 := Drain(s.(pending := s.pending + chunks[0])).0;
      var gone := FeedFits(s, before, chunks);
      AnyCuttingReadsAlike(s1, before + gone, chunks[1..]);
    }
  }

  lemma {:induction false} FeedNone(s: State)
    requires '\n' !in s.pending
    ensures FeedAll(s, []) == Some(Drain(s.(pending := s.pending + Concat([]))))
  {
    assert s.pending + "" == s.pending;
    DrainStop(s);
  }

  /** The chunks fed are the first one and the rest, as the text read is. */
  lemma {:induction false} FeedFirst(s: State, chunks: seq<string>)
    requires chunks != []
    ensures var (s1, items) := Drain(s.(pending := s.pending + chunks[0]));
            && (|s1.pending| <= MAX_LINE && FeedAll(s1, chunks[1..]) ==
                  Some(Drain(s1.(pending := s1.pending + Concat(chunks[1..]))))
                ==> FeedAll(s, chunks) == Some(Drain(s.(pending := s.pending + Concat(chunks)))))
  {
    hide Drain;
    DrainSplit(s, s.pending + chunks[0], Concat(chunks[1..]));
    assert s.pending + Concat(chunks) == (s.pending + chunks[0]) + Concat(chunks[1..]);
  }

  /** A chunk of such a text is fed without a fault, and what follows fits. */
  lemma {:induction false} FeedFits(s: State, before: string, chunks: seq<string>) returns (gone: string)
    requires chunks != [] && Fits(before + s.pending + Concat(chunks))
    ensures var s1 := Drain(s.(pending := s.pending + chunks[0])).0;
            && '\n' !in s1.pending && |s1.pending| <= MAX_LINE
            && Fits((before + gone) + s1.pending + Concat(chunks[1..]))
  {
    var text := s.pending + chunks[0];
    hide *;
    PendingIsTail(s.(pending := text));
    var tail := Drain(s.(pending := text)).0.pending;
    gone := GoneBefore(text, tail);
    ConcatNext(chunks);
    TextSplit(before, s.pending, chunks[0], Concat(chunks[1..]), gone, tail);
    PendingFits(before + gone, tail, Concat(chunks[1..]));
  }

  lemma {:induction false} GoneBefore(text: string, tail: string) returns (gone: string)
    requires TailOf(text, tail)
    ensures text == gone + tail && '\n' !in tail
  {
    gone := text[..|text| - |tail|];
  }

  lemma {:induction false} ConcatNext(chunks: seq<string>)
    requires chunks != []
    ensures Concat(chunks) == chunks[0] + Concat(chunks[1..])
  {
  }

  lemma {:induction false} TextSplit(before: string, p: string, chunk: string, rest: string, gone: string, tail: string)
    requires p + chunk == gone + tail
    ensures before + p + (chunk + rest) == (before + gone) + tail + rest
  {
    assert before + p + (chunk + rest) == before + (p + chunk) + rest;
    assert (before + gone) + tail + rest == before + (gone + tail) + rest;
  }

  lemma {:induction false} PendingFits(before: string, pending: string, rest: string)
    requires Fits(before + pending + rest) && '\n' !in pending
    ensures |pending| <= MAX_LINE
  {
    var text := before + pending + rest;
    assert text[|before|..|before| + |pending|] == pending;
  }

  /** Cuttings that meet no fault agree, whatever the lines. */
  lemma {:induction false} CuttingsAgree(s: State, chunks: seq<string>)
    requires '\n' !in s.pending && FeedAll(s, chunks).Some?
    ensures FeedAll(s, chunks) == Some(Drain(s.(pending := s.pending + Concat(chunks))))
    decreases |chunks|
  {
    if chunks == [] {
      FeedNone(s);
    } else {
      FeedFirst(s, chunks);
      PendingIsTail(s.(pending := s.pending + chunks[0]));
      hide Drain, Concat;
      CuttingsAgree(Drain(s.(pending := s.pending + chunks[0])).0, chunks[1..]);
    }
  }

  lemma {:induction false} NoEndWithin(text: string, i: nat, j: nat, k: int)
    requires i <= j <= |text| && '\n' !in text[i..j]
    ensures i <= k < j ==> text[k] != '\n'
  {
    if i <= k < j {
      assert text[i..j][k - i] == text[k];
    }
  }

  /** A stretch with no end of line at the end of a text stays pending whole. */
  lemma {:induction false} LongTail(text: string, i: nat, j: nat)
    requires i <= j <= |text| && '\n' !in text[i..j]
    ensures j - i <= |Drain(IDLE.(pending := text[..j])).0.pending|
  {
    PendingIsTail(IDLE.(pending := text[..j]));
    hide Drain;
    NoEndWithin(text, i, j, j - |Drain(IDLE.(pending := text[..j])).0.pending| - 1);
  }

  lemma {:induction false} ConcatTwo(a: string, b: string)
    ensures Concat([a, b]) == a + b
  {
    assert [a, b][1..] == [b] && [b][1..] == [];
    assert Concat([b]) == b + Concat([]);
  }

  /** A text with a line that does not fit, cut at its end, is a fault. */
  lemma {:induction false} LongLineFaults(text: string, i: nat, j: nat)
    requires i <= j <= |text| && '\n' !in text[i..j] && 65536 < j - i
    ensures Concat([text[..j], text[j..]]) == text && FeedAll(IDLE, [text[..j], text[j..]]).None?
  {
    LongTail(text, i, j);
    ConcatTwo(text[..j], text[j..]);
    hide Drain, Concat;
    assert IDLE.pending + text[..j] == text[..j];
    assert text[..j] + text[j..] == text;
  }

  /** Every cutting of a text is read without a fault exactly when every stretch
      with no end of line fits; then all read the same items to the same state. */
  lemma {:induction false} CuttingIndependent(text: string)
    ensures (forall chunks :: Concat(chunks) == text ==> FeedAll(IDLE, chunks).Some?) <==> Fits(text)
    ensures forall chunks :: Concat(chunks) == text && FeedAll(IDLE, chunks).Some? ==>
              FeedAll(IDLE, chunks) == Some(Drain(IDLE.(pending := text)))
  {
    hide Drain;
    forall chunks | Concat(chunks) == text && Fits(text)
      ensures FeedAll(IDLE, chunks).Some?
    {
      assert "" + IDLE.pending + Concat(chunks) == text;
      AnyCuttingReadsAlike(IDLE, "", chunks);
    }
    if !Fits(text) {
      var i: nat, j: nat :| i <= j <= |text| && '\n' !in text[i..j] && 65536 < j - i;
      LongLineFaults(text, i, j);
    }
    forall chunks | Concat(chunks) == text && FeedAll(IDLE, chunks).Some?
      ensures FeedAll(IDLE, chunks) == Some(Drain(IDLE.(pending := text)))
    {
      CuttingsAgree(IDLE, chunks);
      assert IDLE.pending + Concat(chunks) == text;
    }
  }

  // ── The printer ──────────────────────────────────────────────────────────

  const MAX_CURSOR := 9_007_199_254_740_991

  /** A cursor as the reader takes it from `Last-Event-ID`
      (src/events.rs:600-609). */
  function ParseCursor(raw: string): Option<nat> {
    if raw == "" || !AllDigits(raw) then None
    else if DecimalValue(raw) <= MAX_CURSOR then Some(DecimalValue(raw)) else None
  }

  lemma {:induction false} CursorBack(n: nat)
    ensures ParseCursor(Decimal(n)) == if n <= 9007199254740991 then Some(n) else None
  {
    DecimalBack(n);
  }

  /** What the stream writes: a row's frame, a heartbeat with the tip's age, its
      end. A row a view has nothing to say of keeps its id and carries no data. */
  datatype Out = Frame(cursor: nat, data: Option<string>) | Heartbeat(age: Option<nat>) | End

  /** `sse_frame` (src/events.rs:656-666). */
  function SseFrame(cursor: nat, data: Option<string>): string {
    match data
    case Some(payload) => "id: " + Decimal(cursor) + "\n" + ("data: " + payload + "\n" + "\n")
    case None => "id: " + Decimal(cursor) + "\n" + "\n"
  }

  function HeartbeatText(age: Option<nat>): string {
    match age
    case Some(seconds) => ": heartbeat tipAge=" + Decimal(seconds) + "\n" + "\n"
    case None => ": heartbeat" + "\n" + "\n"
  }

  const STREAM_END := "retry: 1000" + "\n" + "\n"

  function TextOf(out: Out): string {
    match out
    case Frame(cursor, data) => SseFrame(cursor, data)
    case Heartbeat(age) => HeartbeatText(age)
    case End => STREAM_END
  }

  /** The event a frame is read as: one without data has the empty string. */
  function FrameItem(cursor: nat, data: Option<string>): Item {
    Event(Some(Decimal(cursor)), "message", if data.Some? then data.value else "")
  }

  /** What the reader makes of it. */
  function ItemsOf(out: Out): seq<Item> {
    match out
    case Frame(cursor, data) => [FrameItem(cursor, data)]
    case Heartbeat(_) => [Comment]
    case End => []
  }

  function Printed(outs: seq<Out>): string {
    if outs == [] then "" else TextOf(outs[0]) + Printed(outs[1..])
  }

  function Expected(outs: seq<Out>): seq<Item> {
    if outs == [] then [] else ItemsOf(outs[0]) + Expected(outs[1..])
  }

  /** One line, the parser idle before the text. */
  lemma {:induction false} ReadsLine(s: State, line: string, rest: string)
    requires '\n' !in line
    ensures var (s1, item) := Line(s.(pending := rest), Chomp(line));
            && s1.pending == rest
            && Drain(s.(pending := line + "\n" + rest)) == (Drain(s1).0, Listed(item) + Drain(s1).1)
  {
    var text := line + "\n" + rest;
    IndexAfter(line, '\n', rest);
    assert text[..|line|] == line && text[|line| + 1..] == rest;
    DrainStep(s.(pending := text));
    hide Drain, Line, IndexOf;
  }

  lemma {:induction false} IndexAfter(a: string, c: char, b: string)
    requires c !in a
    ensures IndexOf(a + [c] + b, c) == Some(|a|)
  {
    if a != "" {
      assert (a + [c] + b)[1..] == a[1..] + [c] + b;
      IndexAfter(a[1..], c, b);
    }
  }

  /** A field line: the name, a colon, one space and the value. */
  lemma {:induction false} ReadsField(name: string, value: string)
    requires ':' !in name
    ensures FieldOf(name + ":" + (" " + value)) == (name, value)
  {
    IndexAfter(name, ':', " " + value);
    var line := name + ":" + (" " + value);
    assert line[..|name|] == name && line[|name| + 1..] == " " + value;
    assert (" " + value)[1..] == value;
  }

  /** A line whose reading is known, before the rest of the text. */
  lemma {:induction false} ReadsKnown(s: State, line: string, rest: string, s1: State, item: Option<Item>)
    requires '\n' !in line && Line(s.(pending := rest), Chomp(line)) == (s1, item)
    ensures Drain(s.(pending := line + "\n" + rest)) == (Drain(s1).0, Listed(item) + Drain(s1).1)
  {
    ReadsLine(s, line, rest);
  }

  /** A blank line, with no field before it and at the end of an event. */
  lemma {:induction false} BlankReads(id: Option<string>, payload: string, rest: string)
    ensures Line(IDLE.(pending := rest), Chomp("")) == (IDLE.(pending := rest), None)
    ensures Line(State(rest, [payload], None, id, true), Chomp("")) ==
              (IDLE.(pending := rest), Some(Event(id, "message", payload)))
  {
  }

  /** Data a frame's one line carries whole: no line feed, and no carriage return
      at its end. */
  ghost predicate FitsLine(data: Option<string>) {
    data.Some? ==> '\n' !in data.value && (data.value == "" || data.value[|data.value| - 1] != '\r')
  }

  lemma {:induction false} ReadsDataFrame(cursor: nat, payload: string, rest: string)
    requires FitsLine(Some(payload))
    ensures var r := Drain(IDLE.(pending := SseFrame(cursor, Some(payload)) + rest));
            var s := Drain(IDLE.(pending := rest));
            r == (s.0, [Event(Some(Decimal(cursor)), "message", payload)] + s.1)
  {
    FrameLines(cursor, payload, rest);
    assert '\n' !in payload && (payload == "" || payload[|payload| - 1] != '\r');
    hide *;
    var id := Some(Decimal(cursor));
    var last := "" + "\n" + rest;
    var rows := DataLine(payload) + "\n" + last;
    IdLineReads(cursor, rows);
    ReadsKnown(IDLE, IdLine(cursor), rows, State(rows, [], None, id, true), None);
    DataLineReads(payload, id, last);
    ReadsKnown(State(rows, [], None, id, true), DataLine(payload), last, State(last, [payload], None, id, true), None);
    BlankReads(id, payload, rest);
    ReadsKnown(State(last, [payload], None, id, true), "", rest, IDLE.(pending := rest), Some(Event(id, "message", payload)));
    ListedNone(Drain(State(rows, [], None, id, true)).1);
    ListedNone(Drain(State(last, [payload], None, id, true)).1);
    ListedOne(Event(id, "message", payload));
  }

  lemma {:induction false} IdFrameLines(cursor: nat, rest: string)
    ensures SseFrame(cursor, None) + rest == IdLine(cursor) + "\n" + ("" + "\n" + rest)
    ensures '\n' !in IdLine(cursor)
  {
  }

  /** The blank line after an id alone ends an event without data. */
  lemma {:induction false} BlankAfterId(id: Option<string>, rest: string)
    ensures Line(State(rest, [], None, id, true), Chomp("")) == (IDLE.(pending := rest), Some(Event(id, "message", "")))
  {
  }

  lemma {:induction false} ReadsIdFrame(cursor: nat, rest: string)
    ensures var r := Drain(IDLE.(pending := SseFrame(cursor, None) + rest));
            var s := Drain(IDLE.(pending := rest));
            r == (s.0, [Event(Some(Decimal(cursor)), "message", "")] + s.1)
  {
    IdFrameLines(cursor, rest);
    hide *;
    var id := Some(Decimal(cursor));
    var last := "" + "\n" + rest;
    IdLineReads(cursor, last);
    ReadsKnown(IDLE, IdLine(cursor), last, State(last, [], None, id, true), None);
    BlankAfterId(id, rest);
    ReadsKnown(State(last, [], None, id, true), "", rest, IDLE.(pending := rest), Some(Event(id, "message", "")));
    ListedNone(Drain(State(last, [], None, id, true)).1);
    ListedOne(Event(id, "message", ""));
  }

  /** A frame is read back as its event, its id and its data. */
  lemma {:induction false} ReadsFrame(cursor: nat, data: Option<string>, rest: string)
    requires FitsLine(data)
    ensures var r := Drain(IDLE.(pending := SseFrame(cursor, data) + rest));
            var s := Drain(IDLE.(pending := rest));
            r == (s.0, [FrameItem(cursor, data)] + s.1)
  {
    hide Drain, SseFrame, FitsLine;
    match data {
      case Some(payload) => ReadsDataFrame(cursor, payload, rest);
      case None => ReadsIdFrame(cursor, rest);
    }
  }

  lemma {:induction false} ListedNone(items: seq<Item>)
    ensures Listed(None) + items == items
  {
  }

  lemma {:induction false} ListedOne(item: Item)
    ensures Listed(Some(item)) == [item]
  {
  }

  function IdLine(cursor: nat): string {
    "id: " + Decimal(cursor)
  }

  function DataLine(payload: string): string {
    "data: " + payload
  }

  lemma {:induction false} FrameLines(cursor: nat, payload: string, rest: string)
    ensures SseFrame(cursor, Some(payload)) + rest
         == IdLine(cursor) + "\n" + (DataLine(payload) + "\n" + ("" + "\n" + rest))
    ensures '\n' !in IdLine(cursor) && ('\n' !in payload ==> '\n' !in DataLine(payload))
  {
  }

  lemma {:induction false} IdLineReads(cursor: nat, rest: string)
    ensures Line(IDLE.(pending := rest), Chomp(IdLine(cursor))) ==
              (State(rest, [], None, Some(Decimal(cursor)), true), None)
  {
    var value := Decimal(cursor);
    ReadsField("id", value);
    assert IdLine(cursor) == "id" + ":" + (" " + value);
    assert IdLine(cursor)[|IdLine(cursor)| - 1] == value[|value| - 1];
  }

  lemma {:induction false} DataLineReads(payload: string, id: Option<string>, rest: string)
    requires payload == "" || payload[|payload| - 1] != '\r'
    ensures Line(State(rest, [], None, id, true), Chomp(DataLine(payload))) ==
              (State(rest, [payload], None, id, true), None)
  {
    ReadsField("data", payload);
    assert DataLine(payload) == "data" + ":" + (" " + payload);
    assert [] + [payload] == [payload];
    assert DataLine(payload)[|DataLine(payload)| - 1] == if payload == "" then ' ' else payload[|payload| - 1];
  }

  function BeatLine(age: Option<nat>): string {
    ": heartbeat" + if age.Some? then " tipAge=" + Decimal(age.value) else ""
  }

  lemma {:induction false} BeatLineReads(age: Option<nat>, rest: string)
    ensures '\n' !in BeatLine(age) && HeartbeatText(age) == BeatLine(age) + "\n" + ("" + "\n")
    ensures Line(IDLE.(pending := rest), Chomp(BeatLine(age))) == (IDLE.(pending := rest), Some(Comment))
  {
    BeatText(age);
    hide BeatLine, HeartbeatText;
    CommentReads(BeatLine(age), rest);
  }

  lemma {:induction false} BeatText(age: Option<nat>)
    ensures '\n' !in BeatLine(age) && HeartbeatText(age) == BeatLine(age) + "\n" + ("" + "\n")
    ensures 1 < |BeatLine(age)| && BeatLine(age)[0] == ':'
  {
    if age.Some? {
      assert ": heartbeat" + " tipAge=" == ": heartbeat tipAge=";
      assert BeatLine(age) == ": heartbeat tipAge=" + Decimal(age.value);
    }
  }

  lemma {:induction false} CommentReads(line: string, rest: string)
    requires 1 < |line| && line[0] == ':'
    ensures Line(IDLE.(pending := rest), Chomp(line)) == (IDLE.(pending := rest), Some(Comment))
  {
    assert Chomp(line)[0] == ':';
  }

  lemma {:induction false} EndLineReads(rest: string)
    ensures STREAM_END == "retry: 1000" + "\n" + ("" + "\n")
    ensures Line(IDLE.(pending := rest), Chomp("retry: 1000")) == (IDLE.(pending := rest), None)
  {
    ReadsField("retry", "1000");
    assert "retry: 1000" == "retry" + ":" + (" " + "1000");
  }

  lemma {:induction false} TextJoin(line: string, rest: string)
    ensures (line + "\n" + ("" + "\n")) + rest == line + "\n" + ("" + "\n" + rest)
  {
  }

  /** A line that leaves the parser idle, and the blank line after it. */
  lemma {:induction false} ReadsIdle(line: string, rest: string, item: Option<Item>)
    requires '\n' !in line
    requires Line(IDLE.(pending := "" + "\n" + rest), Chomp(line)) == (IDLE.(pending := "" + "\n" + rest), item)
    ensures var r := Drain(IDLE.(pending := (line + "\n" + ("" + "\n")) + rest));
            var s := Drain(IDLE.(pending := rest));
            r == (s.0, Listed(item) + s.1)
  {
    BlankReads(None, "", rest);
    hide *;
    TextJoin(line, rest);
    ReadsKnown(IDLE, line, "" + "\n" + rest, IDLE.(pending := "" + "\n" + rest), item);
    ReadsKnown(IDLE, "", rest, IDLE.(pending := rest), None);
    ListedNone(Drain(IDLE.(pending := rest)).1);
  }

  lemma {:induction false} ReadsHeartbeat(age: Option<nat>, rest: string)
    ensures var r := Drain(IDLE.(pending := HeartbeatText(age) + rest));
            var s := Drain(IDLE.(pending := rest));
            r == (s.0, [Comment] + s.1)
  {
    hide *;
    BeatLineReads(age, "" + "\n" + rest);
    ReadsIdle(BeatLine(age), rest, Some(Comment));
    ListedOne(Comment);
  }

  lemma {:induction false} ReadsEnd(rest: string)
    ensures var r := Drain(IDLE.(pending := STREAM_END + rest));
            var s := Drain(IDLE.(pending := rest));
            r == (s.0, s.1)
  {
    hide *;
    EndLineReads("" + "\n" + rest);
    ReadsIdle("retry: 1000", rest, None);
    ListedNone(Drain(IDLE.(pending := rest)).1);
  }

  /** Data of one line, as the journal's JSON is. */
  ghost predicate OneLine(outs: seq<Out>) {
    forall i :: 0 <= i < |outs| && outs[i].Frame? ==> FitsLine(outs[i].data)
  }

  lemma {:induction false} ReadsPrinted(outs: seq<Out>)
    requires OneLine(outs)
    ensures Drain(IDLE.(pending := Printed(outs))) == (IDLE, Expected(outs))
    decreases |outs|
  {
    if outs == [] {
      DrainStop(IDLE);
    } else {
      var rest := Printed(outs[1..]);
      ReadsPrinted(outs[1..]);
      match outs[0] {
        case Frame(cursor, data) => ReadsFrame(cursor, data, rest);
        case Heartbeat(age) => ReadsHeartbeat(age, rest);
        case End =>
          ReadsEnd(rest);
          assert [] + Expected(outs[1..]) == Expected(outs[1..]);
      }
      hide Drain, SseFrame, HeartbeatText;
    }
  }

  /** Whatever the stream writes, cut into feeds in any way, the reader gets back
      exactly the cursors and the data in order, and ends as it began. */
  lemma {:induction false} PrintedReadsBack(outs: seq<Out>, chunks: seq<string>)
    requires OneLine(outs) && Concat(chunks) == Printed(outs) && Fits(Printed(outs))
    ensures FeedAll(IDLE, chunks) == Some((IDLE, Expected(outs)))
  {
    CuttingIndependent(Printed(outs));
    ReadsPrinted(outs);
    hide Drain, Fits, FeedAll;
  }
}
