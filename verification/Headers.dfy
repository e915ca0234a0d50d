/** Block headers, the chain parameters and the faults a header is refused with
    (src/consensus.rs). Hashes are opaque numbers; block work is a positive
    number, so a sum of works is the chain work. */
module Headers {
  import opened Wrappers

  type Hash = nat

  // The parent hash of a header that names no parent ("0" sixty-four times).
  const ZERO_HASH: Hash := 0

  type Work = w: nat | 0 < w witness 1

  datatype Header = Header(hash: Hash, prev: Hash, height: nat, time: nat, bits: nat)

  /** What the difficulty rule reads of a header. */
  datatype Link = Link(height: nat, time: nat, bits: nat)

  function LinkOf(h: Header): Link {
    Link(h.height, h.time, h.bits)
  }

  datatype Fault =
    | HighHash
    | PrevNotFound
    | BadPrev
    | BadGenesis
    | CheckpointMismatch
    | ForkPriorToCheckpoint(checkpoint: nat)
    | AncestryMissing(height: nat)
    | NoDifficultyAnswer
    | BadDiffBits(expected: nat)

  /** The answer of the difficulty rule. */
  datatype Answer = Bits(bits: nat) | Missing(height: nat) | NoAnswer

  /** The parameters of a chain. `rule` is the difficulty rule: it is handed the
      links it may read (those of the last `depth` heights that are held), the
      height of the parent and the time of the header. */
  datatype Params = Params(
    pow: Header -> bool,
    work: nat -> Work,
    rule: (map<nat, Link>, nat, nat) -> Answer,
    depth: nat -> nat,
    genesis: Hash,
    checkpoints: seq<(nat, Hash)>)
  {
    /** The checkpoint list is ascending by height, one entry a height. */
    ghost predicate Ascending() {
      forall i, j :: 0 <= i < j < |checkpoints| ==> checkpoints[i].0 < checkpoints[j].0
    }

    /** The checkpoint at `height` (src/consensus.rs:233-238). */
    function CheckpointAt(height: nat): (r: Option<Hash>)
      ensures r.Some? ==> (height, r.value) in checkpoints
      ensures r.None? ==> forall i :: 0 <= i < |checkpoints| ==> checkpoints[i].0 != height
    {
      CheckpointFrom(checkpoints, height)
    }

    static function CheckpointFrom(list: seq<(nat, Hash)>, height: nat): (r: Option<Hash>)
      ensures r.Some? ==> (height, r.value) in list
      ensures r.None? ==> forall i :: 0 <= i < |list| ==> list[i].0 != height
    {
      if list == [] then None
      else if list[0].0 == height then Some(list[0].1)
      else CheckpointFrom(list[1..], height)
    }

    /** `check_checkpoint` (src/consensus.rs:401-415). */
    function CheckCheckpoint(h: Header): Option<Fault> {
      match CheckpointAt(h.height)
      case Some(expected) => if expected == h.hash then None else Some(CheckpointMismatch)
      case None => None
    }

    /** `check_unlinked` (src/storage.rs:1846-1869): a header with no stored
        parent is an anchor (`Some(true)`), an orphan (`Some(false)`) or refused. */
    function CheckUnlinked(h: Header, storeEmpty: bool): (Option<Fault>, bool) {
      if CheckCheckpoint(h).Some? then (CheckCheckpoint(h), false)
      else if h.height == 0 || h.prev == ZERO_HASH then
        if h.height != 0 || h.hash != genesis then (Some(BadGenesis), false) else (None, true)
      else if CheckpointAt(h.height).Some? then (None, true)
      else if storeEmpty then (Some(PrevNotFound), false)
      else (None, false)
    }
  }

  /** Consecutive heights from the first link on. */
  ghost predicate Consecutive(links: seq<Link>) {
    forall i :: 0 <= i < |links| ==> links[i].height == links[0].height + i
  }

  /** The link a run of consecutive links holds at `height`
      (`Window::link_at`, src/consensus.rs:476-485). */
  function LinkAt(links: seq<Link>, height: nat): Option<Link> {
    if links != [] && links[0].height <= height < links[0].height + |links|
    then Some(links[height - links[0].height])
    else None
  }

  /** The links of the `depth` heights up to `prev` that a window holds: all the
      difficulty rule may read. */
  function View(links: seq<Link>, prev: nat, depth: nat): map<nat, Link> {
    map height: nat | prev < height + depth && height <= prev && LinkAt(links, height).Some?
      :: LinkAt(links, height).value
  }

  /** `check_context` (src/consensus.rs:517-531): the checkpoint, then the bits
      against the rule's answer over the window. */
  function CheckContext(p: Params, links: seq<Link>, h: Header): Option<Fault>
    requires 0 < h.height
  {
    if p.CheckCheckpoint(h).Some? then p.CheckCheckpoint(h)
    else
      var prev := h.height - 1;
      match p.rule(View(links, prev, p.depth(prev)), prev, h.time)
      case Missing(height) => Some(AncestryMissing(height))
      case NoAnswer => Some(NoDifficultyAnswer)
      case Bits(expected) => if h.bits == expected then None else Some(BadDiffBits(expected))
  }
}
