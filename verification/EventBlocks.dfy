/** What a block of the event stream means, told apart from the parser: its fields
    in any order and any number, comments among them, up to the blank line that ends
    it (src/sse.rs:88-122; HTML Living Standard, section 9.2.6). */
module EventBlocks {
  import opened Wrappers
  import opened EventStream

  /** A line of a block: a field, its value after a space or not, or a comment. */
  datatype Told = Field(name: string, value: string, spaced: bool) | Note(text: string)

  /** A line and whether it ends in CR LF. */
  datatype Row = Row(told: Told, crlf: bool)

  ghost predicate OnOneLine(s: string) {
    '\n' !in s && (s == "" || s[|s| - 1] != '\r')
  }

  ghost predicate Proper(r: Row) {
    match r.told
    case Field(name, value, spaced) =>
      && name != "" && ':' !in name && '\n' !in name && OnOneLine(value)
      && (!spaced ==> value == "" || value[0] != ' ')
    case Note(text) => OnOneLine(text)
  }

  function LineOf(told: Told): string {
    match told
    case Field(name, value, spaced) => name + ":" + ((if spaced then " " else "") + value)
    case Note(text) => ":" + text
  }

  function Ended(line: string, crlf: bool): string {
    if crlf then line + "\r" else line
  }

  function RowsText(rows: seq<Row>): string {
    if rows == [] then "" else Ended(LineOf(rows[0].told), rows[0].crlf) + "\n" + RowsText(rows[1..])
  }

  // ── The meaning ──────────────────────────────────────────────────────────

  /** The field counts: an id with a null character in it does not. */
  predicate Counts(r: Row, name: string) {
    r.told.Field? && r.told.name == name && (name == "id" ==> '\0' !in r.told.value)
  }

  /** The values of the field, in order. */
  function ValuesOf(rows: seq<Row>, name: string): seq<string> {
    if rows == [] then []
    else (if Counts(rows[0], name) then [rows[0].told.value] else []) + ValuesOf(rows[1..], name)
  }

  /** The value of the last such field. */
  function LastOf(rows: seq<Row>, name: string): (r: Option<string>)
    ensures r.None? <==> forall i :: 0 <= i < |rows| ==> !Counts(rows[i], name)
    ensures r.Some? ==> exists i :: 0 <= i < |rows| && Counts(rows[i], name) && rows[i].told.value == r.value
                                    && forall j :: i < j < |rows| ==> !Counts(rows[j], name)
  {
    if rows == [] then None
    else if Counts(rows[|rows| - 1], name) then Some(rows[|rows| - 1].told.value)
    else LastOf(rows[..|rows| - 1], name)
  }

  predicate Opens(rows: seq<Row>) {
    exists i :: 0 <= i < |rows| && (Counts(rows[i], "data") || Counts(rows[i], "event") || Counts(rows[i], "id"))
  }

  /** One comment for each comment line. */
  function NotesOf(rows: seq<Row>): seq<Item> {
    if rows == [] then [] else (if rows[0].told.Note? then [Comment] else []) + NotesOf(rows[1..])
  }

  function Or(a: Option<string>, b: Option<string>): Option<string> {
    if a.Some? then a else b
  }

  /** The event a block dispatches: the last id, the last type or `message`, and all
      its data, a line feed between. */
  function EventOf(rows: seq<Row>): Item {
    var name := LastOf(rows, "event");
    Event(LastOf(rows, "id"), if name.Some? then name.value else "message", Join(ValuesOf(rows, "data")))
  }

  // ── The parser reads it so ───────────────────────────────────────────────

  /** The parser after the lines of a block. */
  function Gathered(s: State, rows: seq<Row>): State {
    State(s.pending, s.data + ValuesOf(rows, "data"), Or(LastOf(rows, "event"), s.event), Or(LastOf(rows, "id"), s.id),
          s.hasFields || Opens(rows))
  }

  lemma {:induction false} LastCons(rows: seq<Row>, name: string)
    requires rows != []
    ensures LastOf(rows, name) == Or(LastOf(rows[1..], name), if Counts(rows[0], name) then Some(rows[0].told.value) else None)
    decreases |rows|
  {
    var n := |rows| - 1;
    if 0 < n {
      assert rows[1..][n - 1] == rows[n] && rows[1..][..n - 1] == rows[..n][1..];
      if !Counts(rows[n], name) { LastCons(rows[..n], name); }
      hide Counts;
    }
  }

  lemma {:induction false} OpensCons(rows: seq<Row>)
    requires rows != []
    ensures Opens(rows) <==> Opens(rows[1..]) || Counts(rows[0], "data") || Counts(rows[0], "event") || Counts(rows[0], "id")
  {
    hide Counts;
    if i :| 0 <= i < |rows| && (Counts(rows[i], "data") || Counts(rows[i], "event") || Counts(rows[i], "id")) {
      if 0 < i { assert rows[1..][i - 1] == rows[i]; }
    }
    if Opens(rows[1..]) {
      var i :| 0 <= i < |rows[1..]|
               && (Counts(rows[1..][i], "data") || Counts(rows[1..][i], "event") || Counts(rows[1..][i], "id"));
      assert rows[i + 1] == rows[1..][i];
    }
  }

  /** One line gathered, and then the rest. */
  function One(s: State, r: Row): State {
    State(s.pending, if Counts(r, "data") then s.data + [r.told.value] else s.data,
          if Counts(r, "event") then Some(r.told.value) else s.event, if Counts(r, "id") then Some(r.told.value) else s.id,
          s.hasFields || Counts(r, "data") || Counts(r, "event") || Counts(r, "id"))
  }

  lemma {:induction false} GatheredCons(s: State, rows: seq<Row>)
    requires rows != []
    ensures Gathered(s, rows) == Gathered(One(s, rows[0]), rows[1..])
  {
    hide Opens, LastOf, Counts, ValuesOf;
    LastCons(rows, "event");
    LastCons(rows, "id");
    OpensCons(rows);
    ValuesCons(s.data, rows, "data");
  }

  lemma {:induction false} ValuesCons(before: seq<string>, rows: seq<Row>, name: string)
    requires rows != []
    ensures before + ValuesOf(rows, name) ==
              (if Counts(rows[0], name) then before + [rows[0].told.value] else before) + ValuesOf(rows[1..], name)
  {
    if Counts(rows[0], name) {
      assert before + ([rows[0].told.value] + ValuesOf(rows[1..], name)) == before + [rows[0].told.value] + ValuesOf(rows[1..], name);
    } else {
      assert [] + ValuesOf(rows[1..], name) == ValuesOf(rows[1..], name);
    }
  }

  lemma {:induction false} ChompsTo(line: string, crlf: bool)
    requires OnOneLine(line)
    ensures Chomp(Ended(line, crlf)) == line && '\n' !in Ended(line, crlf)
  {
    if crlf { assert (line + "\r")[..|line|] == line; }
  }

  lemma {:induction false} ProperLine(r: Row)
    requires Proper(r)
    ensures OnOneLine(LineOf(r.told)) && LineOf(r.told) != ""
  {
    match r.told {
      case Field(name, value, spaced) =>
        var tail := (if spaced then " " else "") + value;
        var line := name + ":" + tail;
        assert line[|line| - 1] == if tail == "" then ':' else tail[|tail| - 1];
        assert value != "" ==> tail[|tail| - 1] == value[|value| - 1];
      case Note(text) =>
        var line := ":" + text;
        assert text != "" ==> line[|line| - 1] == text[|text| - 1];
    }
  }

  /** A field line splits into its name and its value. */
  lemma {:induction false} Splits(name: string, value: string, spaced: bool)
    requires name != "" && ':' !in name && (!spaced ==> value == "" || value[0] != ' ')
    ensures var line := LineOf(Field(name, value, spaced));
            line[0] == name[0] && FieldOf(line) == (name, value)
  {
    if spaced {
      ReadsField(name, value);
    } else {
      IndexAfter(name, ':', value);
      var line := name + ":" + value;
      assert "" + value == value;
      assert line[..|name|] == name && line[|name| + 1..] == value;
    }
  }

  /** The parser takes in one line of a block. */
  lemma {:induction false} LineTakes(s: State, r: Row)
    requires Proper(r)
    ensures Line(s, LineOf(r.told)) == (One(s, r), if r.told.Note? then Some(Comment) else None)
  {
    match r.told {
      case Field(name, value, spaced) =>
        Splits(name, value, spaced);
        assert name[0] != ':';
        hide LineOf, FieldOf;
      case Note(text) =>
    }
  }

  lemma {:induction false} OneKeeps(s: State, r: Row, pending: string)
    ensures One(s.(pending := pending), r) == One(s, r).(pending := pending)
    ensures One(s, r).pending == s.pending
  {
    hide Counts;
  }

  /** One line read off the text. */
  lemma {:induction false} RowReads(s: State, r: Row, rest: string)
    requires Proper(r)
    ensures var e := Drain(One(s, r).(pending := rest));
            Drain(s.(pending := Ended(LineOf(r.told), r.crlf) + "\n" + rest)) ==
              (e.0, (if r.told.Note? then [Comment] else []) + e.1)
  {
    hide *;
    ProperLine(r);
    ChompsTo(LineOf(r.told), r.crlf);
    LineTakes(s.(pending := rest), r);
    OneKeeps(s, r, rest);
    ReadsKnown(s, Ended(LineOf(r.told), r.crlf), rest, One(s, r).(pending := rest),
               if r.told.Note? then Some(Comment) else None);
    ListedOne(Comment);
    NoneListed();
  }

  lemma {:induction false} NoneListed()
    ensures Listed(None) == []
  {
  }

  ghost predicate AllProper(rows: seq<Row>) {
    forall i :: 0 <= i < |rows| ==> Proper(rows[i])
  }

  lemma {:induction false} ProperCons(rows: seq<Row>)
    requires AllProper(rows) && rows != []
    ensures Proper(rows[0]) && AllProper(rows[1..])
  {
    hide Proper;
  }

  lemma {:induction false} TextCons(rows: seq<Row>, rest: string)
    requires rows != []
    ensures RowsText(rows) + rest == Ended(LineOf(rows[0].told), rows[0].crlf) + "\n" + (RowsText(rows[1..]) + rest)
    ensures NotesOf(rows) == (if rows[0].told.Note? then [Comment] else []) + NotesOf(rows[1..])
  {
    hide LineOf, Ended;
  }

  lemma {:induction false} NoRows(s: State, rest: string)
    ensures RowsText([]) + rest == rest && NotesOf([]) == []
    ensures Gathered(s.(pending := rest), []) == s.(pending := rest)
  {
  }

  lemma {:induction false} GatheredKeeps(s: State, rows: seq<Row>, pending: string)
    ensures Gathered(s, rows).(pending := pending) == Gathered(s.(pending := pending), rows)
  {
    hide Opens, LastOf, ValuesOf;
  }

  /** The lines of a block, read off the text. */
  lemma {:induction false} RowsRead(s: State, rows: seq<Row>, rest: string)
    requires AllProper(rows)
    ensures var e := Drain(Gathered(s, rows).(pending := rest));
            Drain(s.(pending := RowsText(rows) + rest)) == (e.0, NotesOf(rows) + e.1)
    decreases |rows|
  {
    hide *;
    if rows == [] {
      NoRows(s, rest);
      GatheredKeeps(s, rows, rest);
      assert [] + Drain(s.(pending := rest)).1 == Drain(s.(pending := rest)).1;
    } else {
      ProperCons(rows);
      TextCons(rows, rest);
      GatheredCons(s, rows);
      RowReads(s, rows[0], RowsText(rows[1..]) + rest);
      RowsRead(One(s, rows[0]), rows[1..], rest);
      var more := Drain(Gathered(s, rows).(pending := rest)).1;
      var first := if rows[0].told.Note? then [Comment] else [];
      assert first + (NotesOf(rows[1..]) + more) == (first + NotesOf(rows[1..])) + more;
    }
  }

  lemma {:induction false} EndsBlock(rows: seq<Row>, rest: string)
    ensures Line(Gathered(IDLE, rows).(pending := rest), "") ==
              (IDLE.(pending := rest), if Opens(rows) then Some(EventOf(rows)) else None)
  {
    OpensLast(rows);
    assert [] + ValuesOf(rows, "data") == ValuesOf(rows, "data");
    hide LastOf, ValuesOf, Opens, Join;
  }

  /** Without a field that counts nothing is gathered. */
  lemma {:induction false} OpensLast(rows: seq<Row>)
    ensures !Opens(rows) ==> LastOf(rows, "event").None? && LastOf(rows, "id").None? && ValuesOf(rows, "data") == []
  {
    if !Opens(rows) {
      NoValues(rows, "data");
    }
    hide LastOf, Counts, ValuesOf;
  }

  lemma {:induction false} NoValues(rows: seq<Row>, name: string)
    requires forall i :: 0 <= i < |rows| ==> !Counts(rows[i], name)
    ensures ValuesOf(rows, name) == []
    decreases |rows|
  {
    hide Counts;
    if rows != [] {
      assert forall i :: 0 <= i < |rows[1..]| ==> rows[1..][i] == rows[i + 1];
      NoValues(rows[1..], name);
    }
  }

  /** A block, whatever its fields and their order, its lines ended in LF or CR LF:
      each comment is an item at once, and the blank line dispatches the one event,
      if a field that counts came before it; the parser is idle again. */
  lemma {:induction false} BlockReads(rows: seq<Row>, crlf: bool, rest: string)
    requires AllProper(rows)
    ensures var e := Drain(IDLE.(pending := rest));
            Drain(IDLE.(pending := RowsText(rows) + (Ended("", crlf) + "\n" + rest))) ==
              (e.0, NotesOf(rows) + ((if Opens(rows) then [EventOf(rows)] else []) + e.1))
  {
    assert OnOneLine("");
    hide *;
    RowsRead(IDLE, rows, Ended("", crlf) + "\n" + rest);
    ChompsTo("", crlf);
    EndsBlock(rows, rest);
    ReadsKnown(Gathered(IDLE, rows), Ended("", crlf), rest, IDLE.(pending := rest),
               if Opens(rows) then Some(EventOf(rows)) else None);
    ListedOne(EventOf(rows));
    NoneListed();
  }
}
