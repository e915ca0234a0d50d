/** The window of ancestors the difficulty rule reads: links, and the chain work
    between two of them from prefix sums (src/consensus.rs:449-497). */
module ConsensusWindow {
  import opened Wrappers
  import opened Headers

  /** Chain work is 256 bits wide and wraps. */
  const WORK_LIMIT: nat := 0x1_0000_0000_0000_0000_0000_0000_0000_0000_0000_0000_0000_0000_0000_0000_0000_0000

  type ChainWork = w: nat | w < WORK_LIMIT

  function WrappingAdd(a: ChainWork, b: ChainWork): ChainWork {
    (a + b) % WORK_LIMIT
  }

  function WrappingSub(a: ChainWork, b: ChainWork): ChainWork {
    (a - b) % WORK_LIMIT
  }

  datatype Answered = Work(work: ChainWork) | MissingAncestor(height: nat)

  /** The plain sum of the proofs of `links[i..j]`. */
  function ProofSum(proof: nat -> ChainWork, links: seq<Link>, i: nat, j: nat): nat
    requires i <= j <= |links|
    decreases j
  {
    if i == j then 0 else ProofSum(proof, links, i, j - 1) + proof(links[j - 1].bits)
  }

  lemma {:induction false} SumSplit(proof: nat -> ChainWork, links: seq<Link>, i: nat, m: nat, j: nat)
    requires i <= m <= j <= |links|
    ensures ProofSum(proof, links, i, j) == ProofSum(proof, links, i, m) + ProofSum(proof, links, m, j)
    decreases j
  {
    if m < j { SumSplit(proof, links, i, m, j - 1); }
  }

  lemma {:induction false} SumPrefix(proof: nat -> ChainWork, links: seq<Link>, more: seq<Link>, i: nat, j: nat)
    requires i <= j <= |links|
    ensures ProofSum(proof, links + more, i, j) == ProofSum(proof, links, i, j)
    decreases j
  {
    if i < j { SumPrefix(proof, links, more, i, j - 1); }
  }

  /** Adding or taking off before or after the wrap is the same. */
  lemma {:induction false} WrapAdd(a: nat, b: ChainWork)
    ensures (a + b) % WORK_LIMIT == (a % WORK_LIMIT + b) % WORK_LIMIT
  {
    WrapShift(a % WORK_LIMIT + b, a / WORK_LIMIT);
  }

  lemma {:induction false} WrapShift(x: int, k: int)
    ensures (x + k * WORK_LIMIT) % WORK_LIMIT == x % WORK_LIMIT
    decreases if k < 0 then -k else k
  {
    if 0 < k {
      WrapShift(x, k - 1);
      assert x + k * WORK_LIMIT == (x + (k - 1) * WORK_LIMIT) + WORK_LIMIT;
    } else if k < 0 {
      WrapShift(x, k + 1);
      assert x + k * WORK_LIMIT == (x + (k + 1) * WORK_LIMIT) - WORK_LIMIT;
    }
  }

  lemma {:induction false} WrapDifference(a: nat, b: nat)
    ensures (b % WORK_LIMIT - a % WORK_LIMIT) % WORK_LIMIT == (b - a) % WORK_LIMIT
  {
    WrapShift(b % WORK_LIMIT - a % WORK_LIMIT, b / WORK_LIMIT - a / WORK_LIMIT);
  }

  /** The proofs of `links[1..=i]`. */
  function Prefix(proof: nat -> ChainWork, links: seq<Link>, i: nat): ChainWork
    requires i < |links|
  {
    ProofSum(proof, links, 1, i + 1) % WORK_LIMIT
  }

  predicate Holds(links: seq<Link>, height: nat) {
    links != [] && links[0].height <= height < links[0].height + |links|
  }

  /** The work above `first` up to `last`, the plain sum modulo 2^256; below, its
      complement, as a wrapping difference is. */
  function WorkOver(proof: nat -> ChainWork, links: seq<Link>, first: nat, last: nat): ChainWork
    requires Holds(links, first) && Holds(links, last)
  {
    var a, b := first - links[0].height, last - links[0].height;
    if a <= b then ProofSum(proof, links, a + 1, b + 1) % WORK_LIMIT
    else WrappingSub(0, ProofSum(proof, links, b + 1, a + 1) % WORK_LIMIT)
  }

  /** The window as the source holds it. */
  class Window {
    const proof: nat -> ChainWork
    var links: seq<Link>
    var work: seq<ChainWork>

    ghost predicate Valid()
      reads this
    {
      |work| == |links| && forall i :: 0 <= i < |links| ==> work[i] == Prefix(proof, links, i)
    }

    constructor (proof: nat -> ChainWork)
      ensures Valid() && links == [] && this.proof == proof
    {
      this.proof := proof;
      links, work := [], [];
    }

    /** `push`. */
    method Push(link: Link)
      requires Valid()
      modifies this
      ensures Valid() && links == old(links) + [link]
    {
      var sum := if work == [] then 0 else WrappingAdd(work[|work| - 1], proof(link.bits));
      PushedSum(proof, links, link);
      forall i | 0 <= i < |links| ensures Prefix(proof, links + [link], i) == Prefix(proof, links, i) {
        SumPrefix(proof, links, [link], 1, i + 1);
      }
      links, work := links + [link], work + [sum];
    }

    function Index(height: nat): (r: Option<nat>)
      reads this
      ensures r.Some? <==> Holds(links, height)
      ensures r.Some? ==> r.value == height - links[0].height
    {
      if links == [] || height < links[0].height then None
      else if height - links[0].height < |links| then Some(height - links[0].height) else None
    }

    /** `work_between`: the plain sum of the proofs over `(first, last]` modulo
        2^256, whatever was pushed; a missing ancestor exactly when an end is
        outside, the first one named first. */
    method WorkBetween(first: nat, last: nat) returns (r: Answered)
      requires Valid()
      ensures r == if !Holds(links, first) then MissingAncestor(first)
                   else if !Holds(links, last) then MissingAncestor(last)
                   else Work(WorkOver(proof, links, first, last))
    {
      var a := Index(first);
      if a.None? { return MissingAncestor(first); }
      var b := Index(last);
      if b.None? { return MissingAncestor(last); }
      DifferenceIsSum(proof, links, a.value, b.value);
      r := Work(WrappingSub(work[b.value], work[a.value]));
    }
  }

  lemma {:induction false} PushedSum(proof: nat -> ChainWork, links: seq<Link>, link: Link)
    ensures Prefix(proof, links + [link], |links|) ==
              if links == [] then 0 else WrappingAdd(Prefix(proof, links, |links| - 1), proof(link.bits))
  {
    if links != [] {
      SumPrefix(proof, links, [link], 1, |links|);
      WrapAdd(ProofSum(proof, links, 1, |links|), proof(link.bits));
    }
  }

  lemma {:induction false} DifferenceIsSum(proof: nat -> ChainWork, links: seq<Link>, a: nat, b: nat)
    requires a < |links| && b < |links|
    ensures WrappingSub(Prefix(proof, links, b), Prefix(proof, links, a)) ==
              if a <= b then ProofSum(proof, links, a + 1, b + 1) % WORK_LIMIT
              else WrappingSub(0, ProofSum(proof, links, b + 1, a + 1) % WORK_LIMIT)
  {
    WrapDifference(ProofSum(proof, links, 1, a + 1), ProofSum(proof, links, 1, b + 1));
    if a <= b {
      SumSplit(proof, links, 1, a + 1, b + 1);
    } else {
      SumSplit(proof, links, 1, b + 1, a + 1);
      WrapDifference(ProofSum(proof, links, b + 1, a + 1), 0);
    }
  }

  /** The proofs of the links held strictly above one height up to another. */
  function ProofsAbove(proof: nat -> ChainWork, links: seq<Link>, first: nat, last: nat): nat {
    if links == [] then 0
    else
      var l := links[|links| - 1];
      ProofsAbove(proof, links[..|links| - 1], first, last) + if first < l.height <= last then proof(l.bits) else 0
  }

  /** Over consecutive pushes the answer is the sum over the links by height. */
  lemma {:induction false} ConsecutiveWork(proof: nat -> ChainWork, links: seq<Link>, first: nat, last: nat)
    requires Consecutive(links) && Holds(links, first) && Holds(links, last) && first <= last
    ensures WorkOver(proof, links, first, last) == ProofsAbove(proof, links, first, last) % WORK_LIMIT
  {
    SumByHeight(proof, links, first, last, |links|);
    assert links[..|links|] == links;
  }

  lemma {:induction false} SumByHeight(proof: nat -> ChainWork, links: seq<Link>, first: nat, last: nat, n: nat)
    requires Consecutive(links) && Holds(links, first) && Holds(links, last) && first <= last && n <= |links|
    ensures var a, b := first - links[0].height, last - links[0].height;
            ProofsAbove(proof, links[..n], first, last) ==
              if n <= a + 1 then 0 else ProofSum(proof, links, a + 1, if n <= b + 1 then n else b + 1)
    decreases n
  {
    if 0 < n {
      SumByHeight(proof, links, first, last, n - 1);
      assert links[..n][..n - 1] == links[..n - 1];
      assert links[n - 1].height == links[0].height + (n - 1);
    }
  }
}
