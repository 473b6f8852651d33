/** The rebuild of the seeded availability blocks. */
module Blocks {
  import opened Basics
  import opened Entities
  import opened SeedConfig
  import opened Columns

  /** Template i is paired with unit i of the listing, or with nothing. */
  function Candidates(units: seq<string>, templates: seq<Template>): seq<(Option<string>, Template)> {
    seq(|templates|, i requires 0 <= i < |templates| =>
      (if i < |units| then Some(units[i]) else None, templates[i]))
  }

  function KeepAssigned(cs: seq<(Option<string>, Template)>): seq<(string, Template)> {
    if cs == [] then []
    else
      var n := |cs| - 1;
      KeepAssigned(cs[..n]) + if cs[n].0.Some? then [(cs[n].0.value, cs[n].1)] else []
  }

  function BlockRows(units: seq<string>, templates: seq<Template>): seq<Block> {
    var kept := KeepAssigned(Candidates(units, templates));
    seq(|kept|, index requires 0 <= index < |kept| =>
      Block(kept[index].0, kept[index].1.startDate, kept[index].1.endDate,
            if index % 2 != 0 then Maintenance else Blocked, Some(kept[index].1.reason), None))
  }

  function Min(a: nat, b: nat): nat {
    if a < b then a else b
  }

  /** Filtering drops a suffix, so an index after filtering is the template's own index. */
  lemma {:induction false} FilterKeepsIndices(units: seq<string>, templates: seq<Template>)
    ensures var kept := KeepAssigned(Candidates(units, templates));
      && |kept| == Min(|units|, |templates|)
      && forall i :: 0 <= i < |kept| ==> kept[i] == (units[i], templates[i])
  {
    if templates != [] {
      var n := |templates| - 1;
      FilterKeepsIndices(units, templates[..n]);
      assert Candidates(units, templates)[..n] == Candidates(units, templates[..n]);
    }
  }

  /** One block per template that has a unit, alternating by template position. */
  lemma BlockRowsExact(units: seq<string>, templates: seq<Template>)
    ensures var rows := BlockRows(units, templates);
      && |rows| == Min(|units|, |templates|)
      && forall i :: 0 <= i < |rows| ==>
           rows[i] == Block(units[i], templates[i].startDate, templates[i].endDate,
                            if i % 2 == 0 then Blocked else Maintenance, Some(templates[i].reason), None)
  {
    FilterKeepsIndices(units, templates);
  }

  /** Blocks whose reason carries the seed's prefix. */
  predicate IsSeeded(b: Block) {
    b.reason.Some? && StartsWith(b.reason.value, BLOCK_PREFIX)
  }

  function Filter(blocks: seq<Block>, keep: Block -> bool): seq<Block> {
    if blocks == [] then []
    else
      var n := |blocks| - 1;
      Filter(blocks[..n], keep) + if keep(blocks[n]) then [blocks[n]] else []
  }

  function Kept(blocks: seq<Block>): seq<Block> {
    Filter(blocks, b => !IsSeeded(b))
  }

  function Seeded(blocks: seq<Block>): seq<Block> {
    Filter(blocks, b => IsSeeded(b))
  }

  lemma {:induction false} FilterAppend(a: seq<Block>, b: seq<Block>, keep: Block -> bool)
    ensures Filter(a + b, keep) == Filter(a, keep) + Filter(b, keep)
  {
    if b == [] {
      assert a + b == a;
    } else {
      var n := |b| - 1;
      FilterAppend(a, b[..n], keep);
      assert (a + b)[..|a + b| - 1] == a + b[..n];
    }
  }

  lemma {:induction false} FilterAll(blocks: seq<Block>, keep: Block -> bool)
    requires forall b :: b in blocks ==> keep(b)
    ensures Filter(blocks, keep) == blocks
  {
    if blocks != [] {
      var n := |blocks| - 1;
      FilterAll(blocks[..n], keep);
      assert blocks == blocks[..n] + [blocks[n]];
    }
  }

  lemma {:induction false} FilterNone(blocks: seq<Block>, keep: Block -> bool)
    requires forall b :: b in blocks ==> !keep(b)
    ensures Filter(blocks, keep) == []
  {
    if blocks != [] {
      FilterNone(blocks[..|blocks| - 1], keep);
    }
  }

  lemma {:induction false} FilterMembers(blocks: seq<Block>, keep: Block -> bool, b: Block)
    ensures b in Filter(blocks, keep) <==> b in blocks && keep(b)
  {
    if blocks != [] {
      var n := |blocks| - 1;
      FilterMembers(blocks[..n], keep, b);
      assert blocks == blocks[..n] + [blocks[n]];
    }
  }

  /** Deleting by prefix removes every block that has it, and no other. */
  lemma {:induction false} KeptCount(blocks: seq<Block>, b: Block)
    ensures multiset(Kept(blocks))[b] == if Prefixed(b) then 0 else multiset(blocks)[b]
  {
    if blocks != [] {
      var n := |blocks| - 1;
      KeptCount(blocks[..n], b);
      assert blocks == blocks[..n] + [blocks[n]];
    }
  }

  lemma RebuiltCount(blocks: seq<Block>, rows: seq<Block>, b: Block)
    requires forall r :: r in rows ==> IsSeeded(r)
    ensures multiset(Kept(blocks) + rows)[b] == if Prefixed(b) then multiset(rows)[b] else multiset(blocks)[b]
  {
    KeptCount(blocks, b);
    assert b in multiset(rows) ==> b in rows;
  }

  /** Deleting the seeded blocks and appending new ones leaves the others in place. */
  lemma Rebuilt(blocks: seq<Block>, rows: seq<Block>)
    requires forall b :: b in rows ==> IsSeeded(b)
    ensures Kept(Kept(blocks) + rows) == Kept(blocks)
    ensures Seeded(Kept(blocks) + rows) == rows
    ensures Kept(blocks + rows) == Kept(blocks)
    ensures Kept(Kept(blocks)) == Kept(blocks)
    ensures forall b ::
              multiset(Kept(blocks) + rows)[b] == if Prefixed(b) then multiset(rows)[b] else multiset(blocks)[b]
  {
    forall b
      ensures multiset(Kept(blocks) + rows)[b] == if Prefixed(b) then multiset(rows)[b] else multiset(blocks)[b]
    {
      RebuiltCount(blocks, rows, b);
    }
    var plain, seeded := (b: Block) => !IsSeeded(b), (b: Block) => IsSeeded(b);
    forall b | b in Kept(blocks)
      ensures !IsSeeded(b)
    {
      FilterMembers(blocks, plain, b);
    }
    FilterAppend(Kept(blocks), rows, plain);
    FilterAppend(Kept(blocks), rows, seeded);
    FilterAppend(blocks, rows, plain);
    FilterAll(Kept(blocks), plain);
    FilterNone(Kept(blocks), seeded);
    FilterAll(rows, seeded);
    FilterNone(rows, plain);
  }
}
