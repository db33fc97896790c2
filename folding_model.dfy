/**
 * The editor's folding model, as far as the actions use it: at most one
 * region per exact `[start, end)` range, each with a placeholder and an
 * expanded flag. Regions are identified by their range.
 */
module FoldingModel {
  import opened Wrappers
  import opened Psi

  datatype FoldRegion = FoldRegion(range: TextRange, placeholderText: string, expanded: bool)

  type Regions = map<TextRange, FoldRegion>

  /** A range the model accepts for a new region: non-empty and inside the document. */
  predicate ValidRange(range: TextRange, documentLength: nat) {
    0 <= range.startOffset < range.endOffset <= documentLength
  }

  /** `addFoldRegion` succeeds only for a valid range not already taken. */
  predicate CanAdd(regions: Regions, documentLength: nat, range: TextRange) {
    ValidRange(range, documentLength) && range !in regions
  }

  /** Every region is stored under its own range. */
  predicate WellKeyed(regions: Regions) {
    forall range :: range in regions ==> regions[range].range == range
  }

  class FoldingModel {
    const documentLength: nat
    var regions: Regions

    predicate Valid()
      reads this
    {
      WellKeyed(regions)
    }

    constructor (documentLength: nat)
      ensures this.documentLength == documentLength
      ensures regions == map[]
      ensures Valid()
    {
      this.documentLength := documentLength;
      regions := map[];
    }

    /** `getFoldRegion(start, end)`: the region at exactly that range, if any. */
    method GetFoldRegion(startOffset: int, endOffset: int) returns (r: Option<FoldRegion>)
      requires Valid()
      ensures r.Some? <==> TextRange(startOffset, endOffset) in regions
      ensures r.Some? ==> r.value == regions[TextRange(startOffset, endOffset)] && r.value.range == TextRange(startOffset, endOffset)
    {
      var range := TextRange(startOffset, endOffset);
      if range in regions {
        r := Some(regions[range]);
      } else {
        r := None;
      }
    }

    /** `addFoldRegion(start, end, placeholder)`: a new expanded region, or none when the range is refused. */
    method AddFoldRegion(startOffset: int, endOffset: int, placeholderText: string) returns (r: Option<FoldRegion>)
      requires Valid()
      modifies this
      ensures Valid()
      ensures var range := TextRange(startOffset, endOffset);
        if CanAdd(old(regions), documentLength, range) then
          r == Some(FoldRegion(range, placeholderText, true)) && regions == old(regions)[range := r.value]
        else
          r.None? && regions == old(regions)
    {
      var range := TextRange(startOffset, endOffset);
      if CanAdd(regions, documentLength, range) {
        r := Some(FoldRegion(range, placeholderText, true));
        regions := regions[range := r.value];
      } else {
        r := None;
      }
    }

    /** `FoldRegion.setExpanded(expanded)` on a region of this model. */
    method SetExpanded(region: FoldRegion, expanded: bool)
      requires Valid() && region.range in regions
      modifies this
      ensures Valid()
      ensures regions == old(regions)[region.range := old(regions)[region.range].(expanded := expanded)]
    {
      regions := regions[region.range := regions[region.range].(expanded := expanded)];
    }

    /** `removeFoldRegion(region)`: that region goes, every other stays. */
    method RemoveFoldRegion(region: FoldRegion)
      requires Valid()
      modifies this
      ensures Valid()
      ensures regions == old(regions) - {region.range}
    {
      regions := regions - {region.range};
    }
  }
}
