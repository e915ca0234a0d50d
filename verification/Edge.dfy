/** The settled line of the edge cache (src/edge.rs:14-60). */
module Edge {
  import opened Decimals
  import opened Wrappers

  const REORG_BOUND := 400
  const U32_LIMIT := 0x1_0000_0000

  /** `HEADER_EDGE_DEPTH` as the worker reads it. */
  datatype Edge = Off | Depth(depth: nat) {
    function Line(): nat {
      if this.Off? then REORG_BOUND else depth
    }
  }

  /** Unicode's white space, which `str::trim` takes off both ends. */
  predicate IsSpace(c: char) {
    || '\t' <= c <= '\r' || c == ' ' || c == '\U{0085}' || c == '\U{00A0}' || c == '\U{1680}'
    || '\U{2000}' <= c <= '\U{200A}' || c == '\U{2028}' || c == '\U{2029}' || c == '\U{202F}'
    || c == '\U{205F}' || c == '\U{3000}'
  }

  function Trim(s: string): string
    decreases |s|
  {
    if s != "" && IsSpace(s[0]) then Trim(s[1..])
    else if s != "" && IsSpace(s[|s| - 1]) then Trim(s[..|s| - 1])
    else s
  }

  /** `str::parse::<u32>`: an optional plus sign, then digits. */
  function ParseU32(s: string): Option<nat> {
    var body := if s != "" && s[0] == '+' then s[1..] else s;
    if body == "" || !AllDigits(body) || U32_LIMIT <= DecimalValue(body) then None else Some(DecimalValue(body))
  }

  function Parse(raw: Option<string>): (e: Edge)
    ensures e.Line() >= 400
    ensures e.Depth? ==> e.depth < U32_LIMIT
  {
    match raw
    case None => Off
    case Some(s) =>
      match ParseU32(Trim(s))
      case None => Off
      case Some(d) => Depth(Max(d, REORG_BOUND))
  }

  // ── What a setting is read as ────────────────────────────────────────────

  ghost predicate Spaces(s: string) {
    forall i :: 0 <= i < |s| ==> IsSpace(s[i])
  }

  /** White space, a plus sign or none, digits, white space. */
  ghost predicate Spelled(s: string, before: string, plus: string, digits: string, after: string) {
    && s == before + plus + digits + after && Spaces(before) && Spaces(after)
    && (plus == "" || plus == "+") && digits != "" && AllDigits(digits)
  }

  /** The text is a number a u32 holds; the line is that number, or 400 if that is
      more. */
  ghost predicate ReadsAs(s: string, line: nat) {
    exists before, plus, digits, after ::
      Spelled(s, before, plus, digits, after) && DecimalValue(digits) < 0x1_0000_0000 && line == Max(DecimalValue(digits), 400)
  }

  lemma {:induction false} TrimParts(s: string) returns (before: string, after: string)
    ensures s == before + Trim(s) + after && Spaces(before) && Spaces(after)
    decreases |s|
  {
    before, after := "", "";
    if s != "" && IsSpace(s[0]) {
      before, after := TrimParts(s[1..]);
      before := [s[0]] + before;
    } else if s != "" && IsSpace(s[|s| - 1]) {
      before, after := TrimParts(s[..|s| - 1]);
      after := after + [s[|s| - 1]];
    }
  }

  lemma {:induction false} TrimWord(before: string, word: string, after: string)
    requires word != "" && !IsSpace(word[0]) && !IsSpace(word[|word| - 1]) && Spaces(before) && Spaces(after)
    ensures Trim(before + word + after) == word
    decreases |before| + |after|
  {
    var s := before + word + after;
    if before != "" {
      assert s[1..] == before[1..] + word + after;
      TrimWord(before[1..], word, after);
    } else if after != "" {
      assert s[0] == word[0];
      assert s[..|s| - 1] == before + word + after[..|after| - 1];
      TrimWord(before, word, after[..|after| - 1]);
    } else {
      assert s == word;
    }
  }

  lemma {:induction false} SpelledParses(s: string, before: string, plus: string, digits: string, after: string)
    requires Spelled(s, before, plus, digits, after)
    ensures Parse(Some(s)) ==
              if DecimalValue(digits) < 0x1_0000_0000 then Depth(Max(DecimalValue(digits), 400)) else Off
  {
    var word := plus + digits;
    assert s == before + word + after;
    WordEnds(plus, digits);
    WordParses(plus, digits);
    hide Trim, ParseU32, DecimalValue, AllDigits, IsSpace;
    TrimWord(before, word, after);
  }

  lemma {:induction false} WordEnds(plus: string, digits: string)
    requires (plus == "" || plus == "+") && digits != "" && AllDigits(digits)
    ensures var word := plus + digits; !IsSpace(word[0]) && !IsSpace(word[|word| - 1])
  {
    assert (plus + digits)[|plus + digits| - 1] == digits[|digits| - 1];
  }

  lemma {:induction false} WordParses(plus: string, digits: string)
    requires (plus == "" || plus == "+") && digits != "" && AllDigits(digits)
    ensures ParseU32(plus + digits) == if DecimalValue(digits) < 0x1_0000_0000 then Some(DecimalValue(digits)) else None
  {
    if plus == "+" { assert (plus + digits)[1..] == digits; } else { assert plus + digits == digits; }
    hide DecimalValue;
  }

  /** A setting is a line if and only if it spells a number a u32 holds, white space
      about it or not; the line is then that number, never nearer the tip than 400.
      Any other text turns the edge off. */
  lemma {:induction false} ParseExact(s: string, line: nat)
    ensures Parse(Some(s)) == Depth(line) <==> ReadsAs(s, line)
    ensures Parse(Some(s)).Off? <==> forall any: nat :: !ReadsAs(s, any)
  {
    hide Trim, DecimalValue;
    if Parse(Some(s)).Depth? {
      var before, after := TrimParts(s);
      var word := Trim(s);
      var plus := if word != "" && word[0] == '+' then "+" else "";
      var digits := word[|plus|..];
      assert Spelled(s, before, plus, digits, after);
      assert ReadsAs(s, Parse(Some(s)).depth);
    }
    forall any: nat | ReadsAs(s, any) ensures Parse(Some(s)) == Depth(any) {
      var before, plus, digits, after :| Spelled(s, before, plus, digits, after)
        && DecimalValue(digits) < 0x1_0000_0000 && any == Max(DecimalValue(digits), 400);
      SpelledParses(s, before, plus, digits, after);
    }
  }

  /** A number printed in decimal is read back, white space about it or not. */
  lemma {:induction false} NumberIsTheLine(n: nat, before: string, after: string)
    requires Spaces(before) && Spaces(after)
    ensures Parse(Some(before + Decimal(n) + after)) == if n < 0x1_0000_0000 then Depth(Max(n, 400)) else Off
  {
    DecimalBack(n);
    assert before + "" + Decimal(n) + after == before + Decimal(n) + after;
    SpelledParses(before + Decimal(n) + after, before, "", Decimal(n), after);
  }

  /** More than `line` below the served tip. */
  predicate Settled(tip: Option<nat>, height: nat, line: nat): (r: bool)
    ensures r <==> tip.Some? && height + line < tip.value
  {
    tip.Some? && height < tip.value && line < tip.value - height
  }
}
