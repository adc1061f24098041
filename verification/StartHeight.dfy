/** Where a run starts: the height chosen from the configuration and the blocks already stored. */
module StartHeight {
  import opened Options
  import opened Tables

  /** The time that GORM stores for a block without one. */
  const ZERO_TIME: int := -62135596800

  /** The heights that count as indexed for a chain. */
  function IndexedHeights(t: Tables, chain: Id): set<int> {
    set i | i in t.blocks && t.blocks[i].chain == chain && t.blocks[i].indexed && t.blocks[i].time != ZERO_TIME
      :: t.blocks[i].height
  }

  /** The greatest indexed height, or 0 when there is none. */
  predicate IsHighest(indexed: set<int>, h: int) {
    if indexed == {} then h == 0 else h in indexed && forall g | g in indexed :: g <= h
  }

  /** The first height of [start, end] that is not indexed, or start when there is none. */
  predicate IsFirstMissing(indexed: set<int>, start: int, end: int, h: int) {
    || (start <= h <= end && h !in indexed && forall g | start <= g < h :: g in indexed)
    || (h == start && forall g | start <= g <= end :: g in indexed)
  }

  method GetHighestIndexedBlock(indexed: set<int>) returns (h: int)
    ensures IsHighest(indexed, h)
  {
    if indexed == {} {
      return 0;
    }
    ghost var some := SomeElement(indexed);
    h :| h in indexed;
    var rest := indexed - {h};
    while rest != {}
      invariant rest <= indexed && h in indexed
      invariant forall g | g in indexed && g !in rest :: g <= h
      decreases |rest|
    {
      ghost var more := SomeElement(rest);
      var g :| g in rest;
      rest := rest - {g};
      if g > h {
        h := g;
      }
    }
  }

  method GetFirstMissingBlockInRange(indexed: set<int>, start: int, end: int) returns (h: int)
    ensures exists highest :: IsHighest(indexed, highest)
              && IsFirstMissing(indexed, start, if highest > start then highest + 1 else end, h)
    ensures h in indexed ==> h == start && forall g | g in indexed :: g <= start
  {
    var highest := GetHighestIndexedBlock(indexed);
    var last := if highest > start then highest + 1 else end;
    h := start;
    while h <= last && h in indexed
      invariant start <= h && (h <= last + 1 || h == start)
      invariant forall g | start <= g < h :: g in indexed
      decreases last + 1 - h
    {
      h := h + 1;
    }
    if h > last {
      assert highest > start ==> last !in indexed;
      h := start;
    }
    assert IsFirstMissing(indexed, start, if highest > start then highest + 1 else end, h);
  }

  datatype Range = Range(startBlock: int, endBlock: int, reIndex: bool)

  /**
    The chosen start leaves no unindexed height of the range behind. With a start
    block of -1 it is the height after the highest indexed one, but only while the
    chain is ahead of it; otherwise the -1 itself goes through as a height.
   */
  method GetIndexerStartingHeight(range: Range, indexed: set<int>, latestBlock: int) returns (h: int)
    requires forall g | g in indexed :: g >= 1
    ensures range.startBlock >= 1 && !range.reIndex ==> range.startBlock <= h
    ensures range.startBlock >= 1 && !range.reIndex ==> forall g | range.startBlock <= g < h :: g in indexed
    ensures range.startBlock >= 1 && !range.reIndex && h in indexed ==>
              h == range.startBlock && forall g | g in indexed :: g <= h
    ensures range.reIndex && range.startBlock != -1 ==> h == range.startBlock
    ensures range.startBlock == -1 ==>
              exists highest :: IsHighest(indexed, highest)
                && (highest < latestBlock ==> h == highest + 1)
                && (highest >= latestBlock ==> h == -1)
  {
    ghost var top := 0;
    if range.startBlock == -1 {
      var highest := GetHighestIndexedBlock(indexed);
      if highest < latestBlock {
        return highest + 1;
      }
      top := highest;
    }
    if range.reIndex {
      return range.startBlock;
    }
    var maxStart := range.endBlock;
    if maxStart == -1 {
      maxStart := GetHighestIndexedBlock(indexed);
    }
    h := GetFirstMissingBlockInRange(indexed, range.startBlock, maxStart);
    assert -1 !in indexed;
    assert range.startBlock == -1 ==> IsHighest(indexed, top);
  }
}
