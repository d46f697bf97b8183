/** The hand calculator's buffer: the tiles picked so far, the discards
    marked for the furiten check, and the check's switch. */
module HandBuilder {
  import opened Tiles
  import opened HandValidator
  import opened Yaku

  /** handState.maxTiles. */
  const MaxTiles: nat := 14

  /** getTileCount: how many picked tiles carry the key of `t`. */
  function TileCount(tiles: seq<Tile>, t: Tile): (r: nat)
    ensures r == multiset(tiles)[t]
  {
    if tiles == [] then 0
    else
      assert tiles == [tiles[0]] + tiles[1..];
      (if tiles[0] == t then 1 else 0) + TileCount(tiles[1..], t)
  }

  /** What a click on a tile in the picker did. */
  datatype Pick =
    | Discarded  // shift-click with the furiten check on: marked as a discard
    | Refused    // four copies are already in the hand
    | Added      // put into the hand
    | Ignored    // the hand already holds 14 tiles

  /** The removal `splice(index, 1)` makes: the element at `index`, when
      there is one. */
  function Spliced(s: seq<Tile>, index: nat): (r: seq<Tile>)
    ensures index < |s| ==> |r| == |s| - 1 && multiset(r) == multiset(s) - multiset{s[index]}
    ensures index < |s| ==> forall i | 0 <= i < |r| :: r[i] == (if i < index then s[i] else s[i + 1])
    ensures index >= |s| ==> r == s
  {
    if index < |s| then
      assert s == s[..index] + [s[index]] + s[index + 1..];
      s[..index] + s[index + 1..]
    else
      s
  }

  class HandBuffer {
    var tiles: seq<Tile>
    var discards: seq<Tile>
    var checkFuriten: bool

    /** What the picker keeps true: at most 14 tiles, at most four copies of
        any tile, and discards only while the furiten check is on. */
    predicate Valid()
      reads this
    {
      |tiles| <= MaxTiles && AtMostFourCopies(multiset(tiles)) && (!checkFuriten ==> discards == [])
    }

    constructor()
      ensures Valid() && tiles == [] && discards == [] && !checkFuriten
    {
      tiles := [];
      discards := [];
      checkFuriten := false;
    }

    /** addTileToHand: push the tile. */
    method AddTileToHand(t: Tile)
      modifies this
      ensures tiles == old(tiles) + [t]
      ensures discards == old(discards) && checkFuriten == old(checkFuriten)
    {
      tiles := tiles + [t];
    }

    /** The picker's click handler: a shift-click marks a discard while the
        furiten check is on; otherwise the tile is refused at four copies,
        added below 14 tiles, and ignored at 14. */
    method PickTile(t: Tile, shiftKey: bool) returns (r: Pick)
      requires Valid()
      modifies this
      ensures Valid() && checkFuriten == old(checkFuriten)
      ensures r == Discarded <==> shiftKey && old(checkFuriten)
      ensures r == Discarded ==> discards == old(discards) + [t] && tiles == old(tiles)
      ensures r == Refused <==> !(shiftKey && old(checkFuriten)) && multiset(old(tiles))[t] >= 4
      ensures r == Added <==>
        !(shiftKey && old(checkFuriten)) && multiset(old(tiles))[t] < 4 && |old(tiles)| < MaxTiles
      ensures r == Added ==> tiles == old(tiles) + [t] && discards == old(discards)
      ensures r == Refused || r == Ignored ==> tiles == old(tiles) && discards == old(discards)
    {
      if shiftKey && checkFuriten {
        AddToDiscards(t);
        return Discarded;
      }
      var currentCount := TileCount(tiles, t);
      if currentCount >= 4 {
        return Refused;
      }
      if |tiles| < MaxTiles {
        ghost var before := tiles;
        AddTileToHand(t);
        assert multiset(tiles) == multiset(before) + multiset{t};
        return Added;
      }
      return Ignored;
    }

    /** removeTileFromHand: `splice(index, 1)`. */
    method RemoveTileFromHand(index: nat)
      requires Valid()
      modifies this
      ensures Valid()
      ensures tiles == Spliced(old(tiles), index)
      ensures discards == old(discards) && checkFuriten == old(checkFuriten)
    {
      tiles := Spliced(tiles, index);
    }

    /** clearHand: no tiles and no discards; the check keeps its setting. */
    method ClearHand()
      requires Valid()
      modifies this
      ensures Valid()
      ensures tiles == [] && discards == [] && checkFuriten == old(checkFuriten)
    {
      tiles := [];
      discards := [];
    }

    /** toggleFuritenCheck: turning the check off forgets the discards. */
    method ToggleFuritenCheck(checked: bool)
      requires Valid()
      modifies this
      ensures Valid()
      ensures checkFuriten == checked && tiles == old(tiles)
      ensures discards == (if checked then old(discards) else [])
    {
      checkFuriten := checked;
      if !checkFuriten {
        discards := [];
      }
    }

    /** addToDiscards: only while the check is on. */
    method AddToDiscards(t: Tile)
      modifies this
      ensures discards == (if old(checkFuriten) then old(discards) + [t] else old(discards))
      ensures tiles == old(tiles) && checkFuriten == old(checkFuriten)
    {
      if !checkFuriten {
        return;
      }
      discards := discards + [t];
    }

    /** A click on a marked discard: `splice(index, 1)` on the discards. */
    method RemoveDiscard(index: nat)
      requires Valid()
      modifies this
      ensures Valid()
      ensures discards == Spliced(old(discards), index)
      ensures tiles == old(tiles) && checkFuriten == old(checkFuriten)
    {
      discards := Spliced(discards, index);
    }

    /** calculateHandScore: nothing without exactly 14 tiles, otherwise
        analyzeHand with the check's setting and the marked discards. */
    method CalculateHandScore(winType: WinType, closed: bool, cond: Conditions) returns (r: Option<HandResult>)
      ensures r == None <==> |tiles| != 14
      ensures r != None ==> r.value == AnalyzeResult(tiles, winType, closed, cond, checkFuriten, discards)
    {
      if |tiles| != 14 {
        return None;
      }
      var result := AnalyzeHand(tiles, winType, closed, cond, checkFuriten, discards);
      return Some(result);
    }
  }
}
