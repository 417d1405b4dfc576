/** Regions cut further by any splitter that tiles each region and keeps its metadata. */
module Pieces {
  import opened Entities
  import opened Symbols

  /** The pieces of the first `k` regions. */
  ghost function AllPieces(split: Region -> seq<Region>, regions: seq<Region>, k: nat): seq<Region>
    requires k <= |regions|
  {
    if k == 0 then [] else AllPieces(split, regions, k - 1) + split(regions[k - 1])
  }

  ghost predicate Good(split: Region -> seq<Region>, region: Region) {
    && Tiles(split(region), region.start, region.end) && split(region) != []
    && forall j | 0 <= j < |split(region)| :: split(region)[j].meta == region.meta
  }

  ghost predicate AllGood(split: Region -> seq<Region>, regions: seq<Region>) {
    forall i {:trigger Good(split, regions[i])} | 0 <= i < |regions| :: Good(split, regions[i])
  }

  lemma {:induction false} TilesAt(regions: seq<Region>, start: int, end: int, k: nat)
    requires Tiles(regions, start, end) && k < |regions|
    ensures start <= regions[k].start <= regions[k].end <= end
    ensures regions[k].start == if k == 0 then start else regions[k - 1].end
    ensures k == |regions| - 1 ==> regions[k].end == end
  {
    TilesFind(regions[1..], regions[0].end, end, 0);
    if k > 0 { TilesAt(regions[1..], regions[0].end, end, k - 1); }
  }

  function EndOf(regions: seq<Region>, k: nat, start: int): int
    requires k <= |regions|
  {
    if k == 0 then start else regions[k - 1].end
  }

  /** The pieces tile what the regions tile. */
  lemma {:induction false} AllPiecesTile(split: Region -> seq<Region>, regions: seq<Region>, k: nat, start: int, end: int)
    requires k <= |regions| && AllGood(split, regions) && Tiles(regions, start, end)
    ensures Tiles(AllPieces(split, regions, k), start, EndOf(regions, k, start))
    ensures k > 0 ==> AllPieces(split, regions, k) != []
  {
    if k > 0 {
      var region := regions[k - 1];
      assert Good(split, regions[k - 1]);
      AllPiecesTile(split, regions, k - 1, start, end);
      assert EndOf(regions, k - 1, start) == region.start by { TilesAt(regions, start, end, k - 1); }
      TilesJoin(AllPieces(split, regions, k - 1), split(region), start, region.start, region.end);
    }
  }

  /** Every piece is a piece of some region. */
  lemma {:induction false} Origin(split: Region -> seq<Region>, regions: seq<Region>, n: nat, k: nat) returns (i: nat, j: nat)
    requires n <= |regions| && k < |AllPieces(split, regions, n)|
    ensures i < n && j < |split(regions[i])| && AllPieces(split, regions, n)[k] == split(regions[i])[j]
  {
    var before := AllPieces(split, regions, n - 1);
    if k < |before| {
      i, j := Origin(split, regions, n - 1, k);
    } else {
      i, j := n - 1, k - |before|;
    }
  }

  // ----- labels

  lemma {:induction false} TilesMetaAt(regions: seq<Region>, start: int, end: int, k: nat, b: int)
    requires Tiles(regions, start, end) && k < |regions| && Contains(regions[k].start, regions[k].end, b)
    ensures RegionMeta(regions, b) == Some(regions[k].meta)
  {
    if k > 0 {
      TilesAt(regions[1..], regions[0].end, end, k - 1);
      TilesMetaAt(regions[1..], regions[0].end, end, k - 1, b);
    }
  }

  lemma {:induction false} UniformMeta(regions: seq<Region>, meta: Meta, b: int)
    requires forall i | 0 <= i < |regions| :: regions[i].meta == meta
    ensures RegionMeta(regions, b).Some? ==> RegionMeta(regions, b) == Some(meta)
  {
    if regions != [] { UniformMeta(regions[1..], meta, b); }
  }

  lemma SplitMeta(split: Region -> seq<Region>, region: Region, b: int)
    requires Good(split, region)
    ensures RegionMeta(split(region), b) == RegionMeta([region], b)
  {
    UniformMeta(split(region), region.meta, b);
    TilesFind(split(region), region.start, region.end, b);
    assert [region][1..] == [];
  }

  /** Splitting does not relabel any byte. */
  lemma {:induction false} SplittingKeepsMeta(split: Region -> seq<Region>, regions: seq<Region>, n: nat, b: int)
    requires n <= |regions| && AllGood(split, regions)
    ensures RegionMeta(AllPieces(split, regions, n), b) == RegionMeta(regions[..n], b)
  {
    if n > 0 {
      var region := regions[n - 1];
      assert Good(split, regions[n - 1]);
      SplittingKeepsMeta(split, regions, n - 1, b);
      SplitMeta(split, region, b);
      RegionMetaJoin(AllPieces(split, regions, n - 1), split(region), b);
      RegionMetaJoin(regions[..n - 1], [region], b);
      assert regions[..n] == regions[..n - 1] + [region];
    }
  }
}
