/** The context rules told apart from the code that checks them: the listed hash
    at a listed height, and the bits the difficulty rule asks for over the links
    of the last heights of the ancestry (src/consensus.rs:401-415, 449-531). */
module Rules {
  import opened Wrappers
  import opened Headers

  /** The header carries the hash listed at its height, if one is listed. */
  ghost predicate Listed(p: Params, h: Header) {
    forall i :: 0 <= i < |p.checkpoints| && p.checkpoints[i].0 == h.height ==> p.checkpoints[i].1 == h.hash
  }

  /** `view` holds, of the headers of an ancestry, the links of the last `depth`
      heights up to `prev`, and nothing else. */
  ghost predicate ViewOf(line: seq<Header>, prev: nat, depth: nat, view: map<nat, Link>) {
    && (forall height :: height in view ==> prev < height + depth && height <= prev && HeldAt(line, height))
    && forall i :: 0 <= i < |line| && prev < line[i].height + depth && line[i].height <= prev ==>
         line[i].height in view && view[line[i].height] == Link(line[i].height, line[i].time, line[i].bits)
  }

  ghost predicate HeldAt(line: seq<Header>, height: nat) {
    exists i :: 0 <= i < |line| && line[i].height == height
  }

  /** What the difficulty rule answers over the ancestry. */
  ghost predicate Answers(p: Params, line: seq<Header>, h: Header, answer: Answer)
    requires 0 < h.height
  {
    AnswersAt(p, line, h.height - 1, h.time, answer)
  }

  ghost predicate AnswersAt(p: Params, line: seq<Header>, prev: nat, time: nat, answer: Answer) {
    exists view :: ViewOf(line, prev, p.depth(prev), view) && p.rule(view, prev, time) == answer
  }

  /** The header meets the rules over its ancestry, the oldest first. */
  ghost predicate Obeys(p: Params, line: seq<Header>, h: Header)
    requires 0 < h.height
  {
    Listed(p, h) && Answers(p, line, h, Bits(h.bits))
  }

  /** The fault of the first rule it breaks. */
  ghost predicate Breaks(p: Params, line: seq<Header>, h: Header, fault: Fault)
    requires 0 < h.height
  {
    || (!Listed(p, h) && fault == CheckpointMismatch)
    || (Listed(p, h) && match fault
          case AncestryMissing(height) => Answers(p, line, h, Missing(height))
          case NoDifficultyAnswer => Answers(p, line, h, NoAnswer)
          case BadDiffBits(expected) => expected != h.bits && Answers(p, line, h, Bits(expected))
          case _ => false)
  }

  /** Heights one apart. */
  ghost predicate OneApart(line: seq<Header>) {
    forall i :: 0 <= i < |line| ==> line[i].height == line[0].height + i
  }

  function LinksOf(line: seq<Header>): (r: seq<Link>)
    ensures |r| == |line| && forall i :: 0 <= i < |line| ==> r[i] == LinkOf(line[i])
  {
    seq(|line|, i requires 0 <= i < |line| => LinkOf(line[i]))
  }

  lemma {:induction false} ListedExact(p: Params, h: Header)
    requires p.Ascending()
    ensures p.CheckCheckpoint(h) == if Listed(p, h) then None else Some(CheckpointMismatch)
  {
    if p.CheckpointAt(h.height).Some? {
      var hash := p.CheckpointAt(h.height).value;
      var i :| 0 <= i < |p.checkpoints| && p.checkpoints[i] == (h.height, hash);
      forall j | 0 <= j < |p.checkpoints| && p.checkpoints[j].0 == h.height ensures j == i { }
    }
  }

  /** The window the rule is handed is that view, and the only one. */
  lemma {:induction false} ViewExact(line: seq<Header>, prev: nat, depth: nat)
    requires OneApart(line)
    ensures ViewOf(line, prev, depth, View(LinksOf(line), prev, depth))
    ensures forall view :: ViewOf(line, prev, depth, view) ==> view == View(LinksOf(line), prev, depth)
  {
    var links := LinksOf(line);
    var held := View(links, prev, depth);
    forall i | 0 <= i < |line| && prev < line[i].height + depth && line[i].height <= prev
      ensures LinkAt(links, line[i].height) == Some(LinkOf(line[i]))
    {
    }
    forall height | height in held ensures HeldAt(line, height) {
      assert line[height - line[0].height].height == height;
    }
    forall view | ViewOf(line, prev, depth, view) ensures view == held {
      forall height | height in view ensures height in held && held[height] == view[height] {
        assert HeldAt(line, height);
      }
      forall height | height in held ensures height in view { assert HeldAt(line, height); }
    }
  }

  lemma {:induction false} AnswersExact(p: Params, line: seq<Header>, h: Header, answer: Answer)
    requires OneApart(line) && 0 < h.height
    ensures var prev := h.height - 1;
            Answers(p, line, h, answer) <==> p.rule(View(LinksOf(line), prev, p.depth(prev)), prev, h.time) == answer
  {
    hide View, ViewOf, OneApart;
    ViewExact(line, h.height - 1, p.depth(h.height - 1));
  }

  /** The check refuses nothing but a broken rule, and names the first. */
  lemma {:induction false} ContextExact(p: Params, line: seq<Header>, h: Header)
    requires p.Ascending() && OneApart(line) && 0 < h.height
    ensures CheckContext(p, LinksOf(line), h).None? <==> Obeys(p, line, h)
    ensures forall fault :: CheckContext(p, LinksOf(line), h) == Some(fault) <==> Breaks(p, line, h, fault)
  {
    ListedExact(p, h);
    AnswersExact(p, line, h, Bits(h.bits));
    AnswersExact(p, line, h, NoAnswer);
    forall n: nat
      ensures Answers(p, line, h, Bits(n)) <==>
                p.rule(View(LinksOf(line), h.height - 1, p.depth(h.height - 1)), h.height - 1, h.time) == Bits(n)
      ensures Answers(p, line, h, Missing(n)) <==>
                p.rule(View(LinksOf(line), h.height - 1, p.depth(h.height - 1)), h.height - 1, h.time) == Missing(n)
    {
      AnswersExact(p, line, h, Bits(n));
      AnswersExact(p, line, h, Missing(n));
    }
    hide Answers, Listed, View, LinksOf;
  }
}
