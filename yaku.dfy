/** The yaku evaluator: the furiten check, the hand-shape helpers and
    analyzeHand's rule table. */
module Yaku {
  import opened Tiles
  import opened TileCounts
  import opened HandValidator

  datatype WinType = Ron | Tsumo

  /** The special conditions ticked on the calculator form. */
  datatype Conditions = Conditions(
    riichi: bool, doubleRiichi: bool, ippatsu: bool, rinshan: bool, chankan: bool, haitei: bool)

  /** The names a result entry can carry; the error entries carry the reason. */
  datatype YakuName =
    | InvalidHand(reason: ValidationError)
    | Furiten(discarded: Tile)
    | NoYaku
    | Tsuuiisou | Chiitoitsu | Tanyao | Pinfu | Chinitsu | Honitsu | Toitoi | Sanankou
    | Daisangen | Yakuhai | MenzenTsumo | DoubleRiichi | Riichi | Ippatsu | RinshanKaihou
    | Chankan | Haitei | Houtei

  datatype YakuEntry = YakuEntry(name: YakuName, han: nat)

  /** The object analyzeHand returns; `error` and `isFuriten` are false where
      the source leaves them out. */
  datatype HandResult = HandResult(yaku: seq<YakuEntry>, han: nat, fu: nat, error: bool, isFuriten: bool)

  /** The names a result lists. */
  function Names(ys: seq<YakuEntry>): set<YakuName>
  {
    set i | 0 <= i < |ys| :: ys[i].name
  }

  function SumHan(ys: seq<YakuEntry>): nat
  {
    if ys == [] then 0 else SumHan(ys[..|ys| - 1]) + ys[|ys| - 1].han
  }

  predicate Has(r: HandResult, n: YakuName)
  {
    n in Names(r.yaku)
  }

  /** Appending an entry adds its name. */
  lemma NamesPush(ys: seq<YakuEntry>, e: YakuEntry)
    ensures Names(ys + [e]) == Names(ys) + {e.name}
  {
    var zs := ys + [e];
    forall x | x in Names(zs)
      ensures x in Names(ys) + {e.name}
    {
      var i :| 0 <= i < |zs| && zs[i].name == x;
      if i < |ys| {
        assert ys[i].name == x;
      }
    }
    forall x | x in Names(ys) + {e.name}
      ensures x in Names(zs)
    {
      if x == e.name {
        assert zs[|ys|].name == x;
      } else {
        var i :| 0 <= i < |ys| && ys[i].name == x;
        assert zs[i].name == x;
      }
    }
  }

  /** Appending an entry adds its han. */
  lemma SumHanPush(ys: seq<YakuEntry>, e: YakuEntry)
    ensures SumHan(ys + [e]) == SumHan(ys) + e.han
  {
    assert (ys + [e])[..|ys|] == ys;
  }

  /** The entries a rule contributes: its entry when its condition holds. */
  function Opt(c: bool, e: YakuEntry): seq<YakuEntry>
  {
    if c then [e] else []
  }

  lemma NamesAddOpt(acc: seq<YakuEntry>, c: bool, e: YakuEntry)
    ensures Names(acc + Opt(c, e)) == Names(acc) + (if c then {e.name} else {})
  {
    if c {
      NamesPush(acc, e);
    } else {
      assert acc + Opt(c, e) == acc;
    }
  }

  /** `k` copies of one entry. */
  function Repeat(k: nat, e: YakuEntry): seq<YakuEntry>
  {
    if k == 0 then [] else Repeat(k - 1, e) + [e]
  }

  lemma {:induction false} NamesAddRepeat(acc: seq<YakuEntry>, k: nat, e: YakuEntry)
    ensures Names(acc + Repeat(k, e)) == Names(acc) + (if k > 0 then {e.name} else {})
  {
    if k == 0 {
      assert acc + Repeat(k, e) == acc;
    } else {
      NamesAddRepeat(acc, k - 1, e);
      assert acc + Repeat(k, e) == (acc + Repeat(k - 1, e)) + [e];
      NamesPush(acc + Repeat(k - 1, e), e);
    }
  }

  /** `yaku.push(e); han += e.han`. */
  method Push(yaku: seq<YakuEntry>, han: nat, e: YakuEntry) returns (yaku': seq<YakuEntry>, han': nat)
    requires han == SumHan(yaku)
    ensures yaku' == yaku + [e]
    ensures han' == SumHan(yaku')
  {
    SumHanPush(yaku, e);
    yaku', han' := yaku + [e], han + e.han;
  }

  /** `if (c) { yaku.push(e); han += e.han; }`, the step every rule takes. */
  method AwardIf(c: bool, yaku0: seq<YakuEntry>, han0: nat, e: YakuEntry)
    returns (yaku: seq<YakuEntry>, han: nat)
    requires han0 == SumHan(yaku0)
    ensures yaku == yaku0 + Opt(c, e)
    ensures han == SumHan(yaku)
  {
    yaku, han := yaku0, han0;
    if c {
      yaku, han := Push(yaku, han, e);
    } else {
      assert yaku0 + Opt(c, e) == yaku0;
    }
  }

  // ---------------------------------------------------------------------
  // Helpers

  /** checkFuriten with the discard list passed in: the first hand tile, in
      hand order, that matches some discard. */
  function FirstDiscarded(tiles: seq<Tile>, discards: seq<Tile>): (r: Option<Tile>)
    ensures r == None <==> forall t | t in tiles :: t !in discards
    ensures r.Some? ==> r.value in tiles && r.value in discards
    ensures r.Some? && tiles != [] && tiles[0] in discards ==> r.value == tiles[0]
  {
    if tiles == [] then None
    else if tiles[0] in discards then Some(tiles[0])
    else FirstDiscarded(tiles[1..], discards)
  }

  /** The nested loops of checkFuriten; the empty discard list returns at once. */
  method CheckFuriten(tiles: seq<Tile>, discards: seq<Tile>) returns (found: Option<Tile>)
    ensures found == FirstDiscarded(tiles, discards)
  {
    if |discards| == 0 {
      return None;
    }
    for i := 0 to |tiles|
      invariant FirstDiscarded(tiles, discards) == FirstDiscarded(tiles[i..], discards)
    {
      assert tiles[i..][1..] == tiles[i + 1..];
      for j := 0 to |discards|
        invariant tiles[i] !in discards[..j]
      {
        if tiles[i] == discards[j] {
          return Some(tiles[i]);
        }
      }
      assert discards[..|discards|] == discards;
    }
    return None;
  }

  predicate AllHonors(tiles: seq<Tile>)
  {
    forall t | t in tiles :: IsHonor(t)
  }

  predicate AllSimples(tiles: seq<Tile>)
  {
    forall t | t in tiles :: !IsHonor(t) && 2 <= t.value <= 8
  }

  /** `new Set(tiles.map(t => t.suit))` */
  function Suits(tiles: seq<Tile>): set<Suit>
  {
    set t | t in tiles :: t.suit
  }

  /** checkSevenPairs: seven keys with a count of exactly 2. */
  predicate CheckSevenPairs(tiles: seq<Tile>)
  {
    CountEqual(Tally(tiles), 2) == 7
  }

  /** countTriplets: keys with a count of 3 or more. */
  function CountTriplets(tiles: seq<Tile>): nat
  {
    CountAtLeast(Tally(tiles), 3)
  }

  /** countDragonTriplets: dragon values 0, 1, 2 with 3 or more copies. */
  function CountDragonTriplets(tiles: seq<Tile>): (r: nat)
    ensures r <= 3
    ensures r == 3 <==> forall v | 0 <= v < 3 :: multiset(tiles)[Tile(Dragon, v)] >= 3
  {
    var m := multiset(tiles);
    (if m[Tile(Dragon, 0)] >= 3 then 1 else 0)
    + (if m[Tile(Dragon, 1)] >= 3 then 1 else 0)
    + (if m[Tile(Dragon, 2)] >= 3 then 1 else 0)
  }

  /** checkPinfu: exactly one key with count 2, not an honour, no key with 3
      or more, and no honour among the other tiles. */
  predicate CheckPinfu(tiles: seq<Tile>)
  {
    var c := Tally(tiles);
    var pairs := PairKeys(c);
    |pairs| == 1 && !IsHonor(pairs[0]) && CountAtLeast(c, 3) == 0
    && forall t | t in tiles && t != pairs[0] :: !IsHonor(t)
  }

  /** The chinitsu test: one suit, and not an honour suit. */
  predicate FullFlushSuits(tiles: seq<Tile>)
  {
    var s := Suits(tiles);
    |s| == 1 && Wind !in s && Dragon !in s
  }

  /** The honitsu test: two suits, one of them an honour suit and exactly
      one of them a number suit. */
  predicate HalfFlushSuits(tiles: seq<Tile>)
  {
    var s := Suits(tiles);
    |s| == 2 && (Wind in s || Dragon in s) && |set x | x in s && IsNumberSuit(x)| == 1
  }

  // What the helpers mean for the tiles themselves

  /** On fourteen tiles, checkSevenPairs accepts exactly seven distinct pairs. */
  lemma CheckSevenPairsIff(tiles: seq<Tile>)
    requires |tiles| == 14
    ensures CheckSevenPairs(tiles) <==> SevenPairsShape(multiset(tiles))
  {
    var c := Tally(tiles);
    SevenPairsIff(c);
    PairsWeigh(c);
  }

  /** The tile-count entry at `i` counts its key's copies among the tiles. */
  lemma EntryCountsTiles(tiles: seq<Tile>, i: nat)
    requires i < |Tally(tiles)|
    ensures Tally(tiles)[i].key in tiles
    ensures multiset(tiles)[Tally(tiles)[i].key] == Tally(tiles)[i].n
  {
    var c := Tally(tiles);
    KeyAt(c, i);
    EntryLookup(c, i);
    TallyLookup(tiles, c[i].key);
  }

  /** Every tile of the hand has an entry of its own in the tile count. */
  lemma TileHasEntry(tiles: seq<Tile>, t: Tile) returns (i: nat)
    requires t in tiles
    ensures i < |Tally(tiles)| && Tally(tiles)[i].key == t
    ensures multiset(tiles)[t] == Tally(tiles)[i].n
  {
    i := KeyIndex(Tally(tiles), t);
    EntryCountsTiles(tiles, i);
  }

  /** countTriplets is 0 exactly when no tile is held three times or more. */
  lemma CountTripletsNone(tiles: seq<Tile>)
    ensures CountTriplets(tiles) == 0 <==> forall t :: multiset(tiles)[t] < 3
  {
    var c := Tally(tiles);
    if CountTriplets(tiles) == 0 {
      forall t ensures multiset(tiles)[t] < 3 {
        if t in tiles {
          var i := TileHasEntry(tiles, t);
        }
      }
    } else {
      var i :| 0 <= i < |c| && c[i].n >= 3;
      EntryCountsTiles(tiles, i);
    }
  }

  /** Each counted triplet takes three tiles, so fourteen tiles hold at most four. */
  lemma CountTripletsBound(tiles: seq<Tile>)
    ensures 3 * CountTriplets(tiles) <= |tiles|
  {
    TripletsWeigh(Tally(tiles));
  }

  /** checkPinfu read on the tiles: no honour tile, no tile three times or
      more, and exactly one tile held twice. */
  ghost predicate PinfuShape(tiles: seq<Tile>)
  {
    var m := multiset(tiles);
    (forall t | t in m :: !IsHonor(t) && m[t] < 3)
    && exists p :: m[p] == 2 && forall t | t in m && m[t] == 2 :: t == p
  }

  lemma PinfuToShape(tiles: seq<Tile>)
    requires CheckPinfu(tiles)
    ensures PinfuShape(tiles)
  {
    var c := Tally(tiles);
    var m := multiset(tiles);
    var pairs := PairKeys(c);
    var p := pairs[0];
    assert p in pairs;
    var i :| 0 <= i < |c| && c[i].key == p && c[i].n == 2;
    CountEqualOne(c, 2, i);
    EntryCountsTiles(tiles, i);
    forall t | t in m ensures !IsHonor(t) && m[t] < 3 {
      var j := TileHasEntry(tiles, t);
    }
    forall t | t in m && m[t] == 2 ensures t == p {
      var j := TileHasEntry(tiles, t);
    }
  }

  lemma ShapeToPinfu(tiles: seq<Tile>)
    requires PinfuShape(tiles)
    ensures CheckPinfu(tiles)
  {
    var c := Tally(tiles);
    var m := multiset(tiles);
    var p :| m[p] == 2 && forall t | t in m && m[t] == 2 :: t == p;
    var i := TileHasEntry(tiles, p);
    forall j | 0 <= j < |c| && c[j].n == 2 ensures j == i {
      EntryCountsTiles(tiles, j);
      KeysDistinct(c, i, j);
    }
    CountEqualOne(c, 2, i);
    var pairs := PairKeys(c);
    assert pairs[0] in pairs;
    var k :| 0 <= k < |c| && c[k].key == pairs[0] && c[k].n == 2;
    forall j | 0 <= j < |c| ensures c[j].n < 3 {
      EntryCountsTiles(tiles, j);
    }
  }

  lemma CheckPinfuIff(tiles: seq<Tile>)
    ensures CheckPinfu(tiles) <==> PinfuShape(tiles)
  {
    if CheckPinfu(tiles) {
      PinfuToShape(tiles);
    }
    if PinfuShape(tiles) {
      ShapeToPinfu(tiles);
    }
  }

  lemma OneSuit(s: set<Suit>, n: Suit)
    requires |s| == 1 && n in s
    ensures s == {n}
  {
    assert |s - {n}| == 0;
  }

  lemma TwoSuits(s: set<Suit>, n: Suit, h: Suit)
    requires |s| == 2 && n in s && h in s && n != h
    ensures s == {n, h}
  {
    assert |s - {n} - {h}| == 0;
  }

  /** The chinitsu test holds exactly when every tile is of one number suit. */
  lemma FullFlushIff(tiles: seq<Tile>)
    ensures FullFlushSuits(tiles) <==>
      tiles != [] && exists n :: IsNumberSuit(n) && forall t | t in tiles :: t.suit == n
  {
    var s := Suits(tiles);
    if FullFlushSuits(tiles) {
      var n :| n in s;
      OneSuit(s, n);
      assert n != Wind && n != Dragon;
      assert IsNumberSuit(n);
      var t0 :| t0 in tiles && t0.suit == n;
      assert forall t | t in tiles :: t.suit in s;
      assert forall t | t in tiles :: t.suit == n;
    }
    if tiles != [] && exists n :: IsNumberSuit(n) && forall t | t in tiles :: t.suit == n {
      var n :| IsNumberSuit(n) && forall t | t in tiles :: t.suit == n;
      assert tiles[0].suit in s;
      assert s == {n};
    }
  }

  /** The honitsu test holds exactly when the tiles use one number suit and
      one honour suit. */
  lemma HalfFlushIff(tiles: seq<Tile>)
    ensures HalfFlushSuits(tiles) <==>
      exists n, h :: IsNumberSuit(n) && IsHonorSuit(h) && Suits(tiles) == {n, h}
  {
    var s := Suits(tiles);
    var nums := set x | x in s && IsNumberSuit(x);
    if HalfFlushSuits(tiles) {
      var n :| n in nums;
      assert n in s && IsNumberSuit(n);
      OneSuit(nums, n);
      var h := if Wind in s then Wind else Dragon;
      TwoSuits(s, n, h);
    }
    if exists n, h :: IsNumberSuit(n) && IsHonorSuit(h) && s == {n, h} {
      var n, h :| IsNumberSuit(n) && IsHonorSuit(h) && s == {n, h};
      assert nums == {n};
    }
  }

  /** The hand checks analyzeHand's rule table consults, evaluated once. */
  datatype Shape = Shape(
    sevenPairs: bool, allSimples: bool, pinfu: bool, fullFlush: bool, halfFlush: bool,
    triplets: nat, dragonTriplets: nat)

  function ShapeOf(tiles: seq<Tile>): Shape
  {
    Shape(CheckSevenPairs(tiles), AllSimples(tiles), CheckPinfu(tiles), FullFlushSuits(tiles),
          HalfFlushSuits(tiles), CountTriplets(tiles), CountDragonTriplets(tiles))
  }

  // ---------------------------------------------------------------------
  // analyzeHand, in the stages its rule table falls into

  // The rule table as data: each stage appends its entries to the list so
  // far, in the order the source pushes them.

  function PatternEntries(s: Shape, closed: bool, acc: seq<YakuEntry>): seq<YakuEntry>
  {
    acc
    + Opt(s.sevenPairs, YakuEntry(Chiitoitsu, 2))
    + Opt(s.allSimples, YakuEntry(Tanyao, 1))
    + Opt(closed && !s.sevenPairs && s.pinfu, YakuEntry(Pinfu, 1))
  }

  function SuitEntries(s: Shape, closed: bool, acc: seq<YakuEntry>): seq<YakuEntry>
  {
    acc
    + Opt(s.fullFlush, YakuEntry(Chinitsu, if closed then 6 else 5))
    + Opt(!s.fullFlush && s.halfFlush, YakuEntry(Honitsu, if closed then 3 else 2))
    + Opt(s.triplets >= 4, YakuEntry(Toitoi, 2))
    + Opt(s.triplets == 3, YakuEntry(Sanankou, 2))
  }

  function DragonEntries(s: Shape, acc: seq<YakuEntry>): seq<YakuEntry>
  {
    if s.dragonTriplets == 3 then acc + [YakuEntry(Daisangen, 13)]
    else acc + Repeat(s.dragonTriplets, YakuEntry(Yakuhai, 1))
  }

  function MenzenEntries(winType: WinType, closed: bool, hasPinfu: bool, isSevenPairs: bool,
                         acc: seq<YakuEntry>): seq<YakuEntry>
  {
    acc + Opt(winType == Tsumo && closed && !hasPinfu && !isSevenPairs, YakuEntry(MenzenTsumo, 1))
  }

  function RiichiEntries(cond: Conditions, acc: seq<YakuEntry>): seq<YakuEntry>
  {
    acc
    + Opt(cond.doubleRiichi, YakuEntry(DoubleRiichi, 2))
    + Opt(!cond.doubleRiichi && cond.riichi, YakuEntry(Riichi, 1))
    + Opt(cond.ippatsu && (cond.riichi || cond.doubleRiichi), YakuEntry(Ippatsu, 1))
  }


  function LastTileEntries(winType: WinType, cond: Conditions, acc: seq<YakuEntry>): seq<YakuEntry>
  {
    acc
    + Opt(cond.rinshan, YakuEntry(RinshanKaihou, 1))
    + Opt(cond.chankan, YakuEntry(Chankan, 1))
    + Opt(cond.haitei, YakuEntry(if winType == Tsumo then Haitei else Houtei, 1))
  }

  /** The entries the special conditions earn, after the shape stages. */
  function ConditionEntries(winType: WinType, closed: bool, hasPinfu: bool, isSevenPairs: bool,
                            cond: Conditions, acc: seq<YakuEntry>): seq<YakuEntry>
  {
    LastTileEntries(winType, cond, RiichiEntries(cond, MenzenEntries(winType, closed, hasPinfu, isSevenPairs, acc)))
  }

  /** The entries the hand's shape earns, before the condition rules. */
  function ShapedEntries(s: Shape, closed: bool): seq<YakuEntry>
  {
    DragonEntries(s, SuitEntries(s, closed, PatternEntries(s, closed, [])))
  }

  /** All entries of a hand that passed validation, furiten and all honours:
      big three dragons stops before the condition rules. */
  function TableEntries(s: Shape, winType: WinType, closed: bool, cond: Conditions): seq<YakuEntry>
  {
    var shaped := ShapedEntries(s, closed);
    if s.dragonTriplets == 3 then shaped
    else ConditionEntries(winType, closed, closed && !s.sevenPairs && s.pinfu, s.sevenPairs, cond, shaped)
  }

  /** The result of the rule table: the entries, or the no-yaku error when
      there are none. */
  function TableResult(s: Shape, winType: WinType, closed: bool, cond: Conditions): HandResult
  {
    var yaku := TableEntries(s, winType, closed, cond);
    if yaku == [] then HandResult([YakuEntry(NoYaku, 0)], 0, 30, true, false)
    else HandResult(yaku, SumHan(yaku), if s.sevenPairs then 25 else 30, false, false)
  }

  /** Seven pairs, all simples and pinfu, with the fu each sets. */
  method PatternYaku(s: Shape, closed: bool)
    returns (yaku: seq<YakuEntry>, han: nat, fu: nat, hasPinfu: bool)
    ensures yaku == PatternEntries(s, closed, []) && han == SumHan(yaku)
    ensures hasPinfu == (closed && !s.sevenPairs && s.pinfu)
    ensures fu == if s.sevenPairs then 25 else 30
  {
    yaku, han := AwardIf(s.sevenPairs, [], 0, YakuEntry(Chiitoitsu, 2));
    fu := if s.sevenPairs then 25 else 30;
    yaku, han := AwardIf(s.allSimples, yaku, han, YakuEntry(Tanyao, 1));
    hasPinfu := closed && !s.sevenPairs && s.pinfu;
    yaku, han := AwardIf(hasPinfu, yaku, han, YakuEntry(Pinfu, 1));
    if hasPinfu {
      fu := 30;
    }
  }

  /** Full flush, half flush, all triplets and three concealed triplets. */
  method SuitYaku(s: Shape, closed: bool, yaku0: seq<YakuEntry>, han0: nat)
    returns (yaku: seq<YakuEntry>, han: nat)
    requires han0 == SumHan(yaku0)
    ensures yaku == SuitEntries(s, closed, yaku0) && han == SumHan(yaku)
  {
    yaku, han := AwardIf(s.fullFlush, yaku0, han0, YakuEntry(Chinitsu, if closed then 6 else 5));
    yaku, han := AwardIf(!s.fullFlush && s.halfFlush, yaku, han, YakuEntry(Honitsu, if closed then 3 else 2));
    yaku, han := AwardIf(s.triplets >= 4, yaku, han, YakuEntry(Toitoi, 2));
    yaku, han := AwardIf(s.triplets == 3, yaku, han, YakuEntry(Sanankou, 2));
  }

  /** The dragon rules: three dragon triplets are big three dragons and end
      the evaluation (`complete`); otherwise one yakuhai entry per dragon
      triplet. */
  method DragonYaku(s: Shape, yaku0: seq<YakuEntry>, han0: nat)
    returns (yaku: seq<YakuEntry>, han: nat, complete: bool)
    requires han0 == SumHan(yaku0)
    ensures yaku == DragonEntries(s, yaku0) && han == SumHan(yaku)
    ensures complete <==> s.dragonTriplets == 3
  {
    yaku, han := yaku0, han0;
    complete := false;
    if s.dragonTriplets == 3 {
      yaku, han := Push(yaku, han, YakuEntry(Daisangen, 13));
      complete := true;
    } else {
      for i := 0 to s.dragonTriplets
        invariant yaku == yaku0 + Repeat(i, YakuEntry(Yakuhai, 1))
        invariant han == SumHan(yaku)
      {
        yaku, han := Push(yaku, han, YakuEntry(Yakuhai, 1));
        assert yaku0 + Repeat(i + 1, YakuEntry(Yakuhai, 1))
          == (yaku0 + Repeat(i, YakuEntry(Yakuhai, 1))) + [YakuEntry(Yakuhai, 1)];
      }
    }
  }

  /** Double riichi, riichi and ippatsu. */
  method RiichiYaku(cond: Conditions, yaku0: seq<YakuEntry>, han0: nat)
    returns (yaku: seq<YakuEntry>, han: nat)
    requires han0 == SumHan(yaku0)
    ensures yaku == RiichiEntries(cond, yaku0)
    ensures han == SumHan(yaku)
  {
    yaku, han := AwardIf(cond.doubleRiichi, yaku0, han0, YakuEntry(DoubleRiichi, 2));
    yaku, han := AwardIf(!cond.doubleRiichi && cond.riichi, yaku, han, YakuEntry(Riichi, 1));
    yaku, han := AwardIf(cond.ippatsu && (cond.riichi || cond.doubleRiichi),
                         yaku, han, YakuEntry(Ippatsu, 1));
  }


  /** Rinshan, chankan and haitei/houtei. */
  method LastTileYaku(winType: WinType, cond: Conditions, yaku0: seq<YakuEntry>, han0: nat)
    returns (yaku: seq<YakuEntry>, han: nat)
    requires han0 == SumHan(yaku0)
    ensures yaku == LastTileEntries(winType, cond, yaku0)
    ensures han == SumHan(yaku)
  {
    yaku, han := AwardIf(cond.rinshan, yaku0, han0, YakuEntry(RinshanKaihou, 1));
    yaku, han := AwardIf(cond.chankan, yaku, han, YakuEntry(Chankan, 1));
    yaku, han := AwardIf(cond.haitei, yaku, han,
                         YakuEntry(if winType == Tsumo then Haitei else Houtei, 1));
  }

  /** analyzeHand after validation, the furiten check and the all-honours
      yakuman: the rule table proper. */
  method EvaluateYaku(s: Shape, winType: WinType, closed: bool, cond: Conditions)
    returns (r: HandResult)
    ensures r == TableResult(s, winType, closed, cond)
  {
    var yaku, han, fu, hasPinfu := PatternYaku(s, closed);
    yaku, han := SuitYaku(s, closed, yaku, han);
    var complete;
    yaku, han, complete := DragonYaku(s, yaku, han);
    if complete {
      return HandResult(yaku, han, fu, false, false);
    }
    // menzen tsumo is not awarded beside pinfu or seven pairs
    yaku, han := AwardIf(winType == Tsumo && closed && !hasPinfu && !s.sevenPairs,
                         yaku, han, YakuEntry(MenzenTsumo, 1));
    yaku, han := RiichiYaku(cond, yaku, han);
    yaku, han := LastTileYaku(winType, cond, yaku, han);

    if |yaku| == 0 {
      return HandResult([YakuEntry(NoYaku, 0)], 0, 30, true, false);
    }
    return HandResult(yaku, han, fu, false, false);
  }

  // The rule table read one name at a time: each stage's award predicate
  // says whether that stage lists a name, and each stage's lemma says the
  // entries it pushes list exactly those names.

  predicate PatternAward(n: YakuName, s: Shape, closed: bool)
  {
    match n
    case Chiitoitsu => s.sevenPairs
    case Tanyao => s.allSimples
    case Pinfu => closed && !s.sevenPairs && s.pinfu
    case _ => false
  }

  predicate SuitAward(n: YakuName, s: Shape)
  {
    match n
    case Chinitsu => s.fullFlush
    case Honitsu => !s.fullFlush && s.halfFlush
    case Toitoi => s.triplets >= 4
    case Sanankou => s.triplets == 3
    case _ => false
  }

  predicate DragonAward(n: YakuName, s: Shape)
  {
    match n
    case Daisangen => s.dragonTriplets == 3
    case Yakuhai => s.dragonTriplets > 0 && s.dragonTriplets != 3
    case _ => false
  }

  predicate MenzenAward(n: YakuName, winType: WinType, closed: bool, hasPinfu: bool, isSevenPairs: bool)
  {
    n == MenzenTsumo && winType == Tsumo && closed && !hasPinfu && !isSevenPairs
  }

  predicate RiichiAward(n: YakuName, cond: Conditions)
  {
    match n
    case DoubleRiichi => cond.doubleRiichi
    case Riichi => cond.riichi && !cond.doubleRiichi
    case Ippatsu => cond.ippatsu && (cond.riichi || cond.doubleRiichi)
    case _ => false
  }


  predicate LastTileAward(n: YakuName, winType: WinType, cond: Conditions)
  {
    match n
    case RinshanKaihou => cond.rinshan
    case Chankan => cond.chankan
    case Haitei => cond.haitei && winType == Tsumo
    case Houtei => cond.haitei && winType == Ron
    case _ => false
  }

  /** Whether the rule table awards `n` to a hand of this shape, won this way
      under these conditions: big three dragons ends the evaluation before
      the condition rules are reached. */
  predicate Awarded(n: YakuName, s: Shape, winType: WinType, closed: bool, cond: Conditions)
  {
    PatternAward(n, s, closed) || SuitAward(n, s) || DragonAward(n, s)
    || (s.dragonTriplets != 3
        && (MenzenAward(n, winType, closed, closed && !s.sevenPairs && s.pinfu, s.sevenPairs)
            || RiichiAward(n, cond) || LastTileAward(n, winType, cond)))
  }

  // The names each stage lists ...

  lemma PatternNames(s: Shape, closed: bool, acc: seq<YakuEntry>)
    ensures Names(PatternEntries(s, closed, acc)) == Names(acc)
      + (if s.sevenPairs then {Chiitoitsu} else {})
      + (if s.allSimples then {Tanyao} else {})
      + (if closed && !s.sevenPairs && s.pinfu then {Pinfu} else {})
  {
    var a1 := acc + Opt(s.sevenPairs, YakuEntry(Chiitoitsu, 2));
    var a2 := a1 + Opt(s.allSimples, YakuEntry(Tanyao, 1));
    NamesAddOpt(acc, s.sevenPairs, YakuEntry(Chiitoitsu, 2));
    NamesAddOpt(a1, s.allSimples, YakuEntry(Tanyao, 1));
    NamesAddOpt(a2, closed && !s.sevenPairs && s.pinfu, YakuEntry(Pinfu, 1));
  }

  lemma SuitNames(s: Shape, closed: bool, acc: seq<YakuEntry>)
    ensures Names(SuitEntries(s, closed, acc)) == Names(acc)
      + (if s.fullFlush then {Chinitsu} else {})
      + (if !s.fullFlush && s.halfFlush then {Honitsu} else {})
      + (if s.triplets >= 4 then {Toitoi} else {})
      + (if s.triplets == 3 then {Sanankou} else {})
  {
    var e1 := YakuEntry(Chinitsu, if closed then 6 else 5);
    var e2 := YakuEntry(Honitsu, if closed then 3 else 2);
    var a1 := acc + Opt(s.fullFlush, e1);
    var a2 := a1 + Opt(!s.fullFlush && s.halfFlush, e2);
    var a3 := a2 + Opt(s.triplets >= 4, YakuEntry(Toitoi, 2));
    NamesAddOpt(acc, s.fullFlush, e1);
    NamesAddOpt(a1, !s.fullFlush && s.halfFlush, e2);
    NamesAddOpt(a2, s.triplets >= 4, YakuEntry(Toitoi, 2));
    NamesAddOpt(a3, s.triplets == 3, YakuEntry(Sanankou, 2));
  }

  lemma DragonNames(s: Shape, acc: seq<YakuEntry>)
    ensures Names(DragonEntries(s, acc)) == Names(acc)
      + (if s.dragonTriplets == 3 then {Daisangen} else {})
      + (if 0 < s.dragonTriplets != 3 then {Yakuhai} else {})
  {
    if s.dragonTriplets == 3 {
      NamesPush(acc, YakuEntry(Daisangen, 13));
    } else {
      NamesAddRepeat(acc, s.dragonTriplets, YakuEntry(Yakuhai, 1));
    }
  }

  lemma RiichiNames(cond: Conditions, acc: seq<YakuEntry>)
    ensures Names(RiichiEntries(cond, acc)) == Names(acc)
      + (if cond.doubleRiichi then {DoubleRiichi} else {})
      + (if !cond.doubleRiichi && cond.riichi then {Riichi} else {})
      + (if cond.ippatsu && (cond.riichi || cond.doubleRiichi) then {Ippatsu} else {})
  {
    var c2 := !cond.doubleRiichi && cond.riichi;
    var c3 := cond.ippatsu && (cond.riichi || cond.doubleRiichi);
    var a1 := acc + Opt(cond.doubleRiichi, YakuEntry(DoubleRiichi, 2));
    var a2 := a1 + Opt(c2, YakuEntry(Riichi, 1));
    NamesAddOpt(acc, cond.doubleRiichi, YakuEntry(DoubleRiichi, 2));
    NamesAddOpt(a1, c2, YakuEntry(Riichi, 1));
    NamesAddOpt(a2, c3, YakuEntry(Ippatsu, 1));
  }


  lemma LastTileNames(winType: WinType, cond: Conditions, acc: seq<YakuEntry>)
    ensures Names(LastTileEntries(winType, cond, acc)) == Names(acc)
      + (if cond.rinshan then {RinshanKaihou} else {})
      + (if cond.chankan then {Chankan} else {})
      + (if cond.haitei then {if winType == Tsumo then Haitei else Houtei} else {})
  {
    var e3 := YakuEntry(if winType == Tsumo then Haitei else Houtei, 1);
    var a1 := acc + Opt(cond.rinshan, YakuEntry(RinshanKaihou, 1));
    var a2 := a1 + Opt(cond.chankan, YakuEntry(Chankan, 1));
    NamesAddOpt(acc, cond.rinshan, YakuEntry(RinshanKaihou, 1));
    NamesAddOpt(a1, cond.chankan, YakuEntry(Chankan, 1));
    NamesAddOpt(a2, cond.haitei, e3);
  }

  // ... and so each stage lists a name exactly when its award predicate
  // holds or the list so far already had it.

  lemma PatternHas(s: Shape, closed: bool, acc: seq<YakuEntry>, n: YakuName)
    ensures n in Names(PatternEntries(s, closed, acc)) <==> n in Names(acc) || PatternAward(n, s, closed)
  {
    PatternNames(s, closed, acc);
  }

  lemma SuitHas(s: Shape, closed: bool, acc: seq<YakuEntry>, n: YakuName)
    ensures n in Names(SuitEntries(s, closed, acc)) <==> n in Names(acc) || SuitAward(n, s)
  {
    SuitNames(s, closed, acc);
  }

  lemma DragonHas(s: Shape, acc: seq<YakuEntry>, n: YakuName)
    ensures n in Names(DragonEntries(s, acc)) <==> n in Names(acc) || DragonAward(n, s)
  {
    DragonNames(s, acc);
  }

  lemma MenzenHas(winType: WinType, closed: bool, hasPinfu: bool, isSevenPairs: bool,
                  acc: seq<YakuEntry>, n: YakuName)
    ensures n in Names(MenzenEntries(winType, closed, hasPinfu, isSevenPairs, acc))
      <==> n in Names(acc) || MenzenAward(n, winType, closed, hasPinfu, isSevenPairs)
  {
    NamesAddOpt(acc, winType == Tsumo && closed && !hasPinfu && !isSevenPairs, YakuEntry(MenzenTsumo, 1));
  }

  lemma RiichiHas(cond: Conditions, acc: seq<YakuEntry>, n: YakuName)
    ensures n in Names(RiichiEntries(cond, acc)) <==> n in Names(acc) || RiichiAward(n, cond)
  {
    RiichiNames(cond, acc);
  }


  lemma LastTileHas(winType: WinType, cond: Conditions, acc: seq<YakuEntry>, n: YakuName)
    ensures n in Names(LastTileEntries(winType, cond, acc)) <==> n in Names(acc) || LastTileAward(n, winType, cond)
  {
    LastTileNames(winType, cond, acc);
  }

  /** The shape stages list exactly the names their rules award. */
  lemma ShapedHas(s: Shape, closed: bool, n: YakuName)
    ensures n in Names(ShapedEntries(s, closed)) <==>
      PatternAward(n, s, closed) || SuitAward(n, s) || DragonAward(n, s)
  {
    var p := PatternEntries(s, closed, []);
    var q := SuitEntries(s, closed, p);
    assert Names([]) == {};
    PatternHas(s, closed, [], n);
    assert n in Names(p) <==> PatternAward(n, s, closed);
    SuitHas(s, closed, p, n);
    DragonHas(s, q, n);
  }

  /** The condition stages list exactly the names their rules award. */
  lemma ConditionHas(winType: WinType, closed: bool, hasPinfu: bool, isSevenPairs: bool,
                     cond: Conditions, acc: seq<YakuEntry>, n: YakuName)
    ensures n in Names(ConditionEntries(winType, closed, hasPinfu, isSevenPairs, cond, acc)) <==>
      n in Names(acc) || MenzenAward(n, winType, closed, hasPinfu, isSevenPairs)
      || RiichiAward(n, cond) || LastTileAward(n, winType, cond)
  {
    var m := MenzenEntries(winType, closed, hasPinfu, isSevenPairs, acc);
    MenzenHas(winType, closed, hasPinfu, isSevenPairs, acc, n);
    RiichiHas(cond, m, n);
    LastTileHas(winType, cond, RiichiEntries(cond, m), n);
  }

  /** The entries the rule table pushes name exactly the awarded yaku. */
  lemma TableHas(s: Shape, winType: WinType, closed: bool, cond: Conditions, n: YakuName)
    ensures n in Names(TableEntries(s, winType, closed, cond)) <==> Awarded(n, s, winType, closed, cond)
  {
    ShapedHas(s, closed, n);
    if s.dragonTriplets != 3 {
      ConditionHas(winType, closed, closed && !s.sevenPairs && s.pinfu, s.sevenPairs, cond,
                   ShapedEntries(s, closed), n);
    }
  }

  /** The names that only the special conditions award. */
  predicate IsConditionName(n: YakuName)
  {
    n.MenzenTsumo? || n.DoubleRiichi? || n.Riichi? || n.Ippatsu? || n.RinshanKaihou?
    || n.Chankan? || n.Haitei? || n.Houtei?
  }

  /** Big three dragons ends the evaluation: it is the last entry, and no
      dragon triplet or special condition is listed beside it. */
  ghost predicate DragonRules(r: HandResult, s: Shape)
  {
    (Has(r, Daisangen) ==>
      r.yaku != [] && r.yaku[|r.yaku| - 1] == YakuEntry(Daisangen, 13)
      && !Has(r, Yakuhai) && forall n :: IsConditionName(n) ==> !Has(r, n))
    && (Has(r, Yakuhai) ==> s.dragonTriplets > 0 && s.dragonTriplets != 3)
  }

  /** Double riichi replaces riichi, and ippatsu needs one of them. */
  predicate RiichiRules(r: HandResult, cond: Conditions)
  {
    !(Has(r, Riichi) && Has(r, DoubleRiichi))
    && (Has(r, Riichi) ==> cond.riichi && !cond.doubleRiichi)
    && (Has(r, DoubleRiichi) ==> cond.doubleRiichi)
    && (Has(r, Ippatsu) ==> cond.ippatsu && (cond.riichi || cond.doubleRiichi))
  }

  /** Menzen tsumo is never listed with pinfu or seven pairs, and pinfu never
      with seven pairs. */
  predicate ClosedHandRules(r: HandResult, s: Shape, winType: WinType, closed: bool)
  {
    (Has(r, MenzenTsumo) ==> winType == Tsumo && closed && !Has(r, Pinfu) && !Has(r, Chiitoitsu))
    && (Has(r, Pinfu) ==> closed && !s.sevenPairs && s.pinfu && !Has(r, Chiitoitsu))
    && (Has(r, Chiitoitsu) ==> s.sevenPairs)
  }

  /** All simples, all triplets and three concealed triplets need their shape. */
  predicate ShapeRules(r: HandResult, s: Shape)
  {
    (Has(r, Tanyao) ==> s.allSimples)
    && (Has(r, Toitoi) ==> s.triplets >= 4)
    && (Has(r, Sanankou) ==> s.triplets == 3)
  }

  /** A flush needs its suits, and full flush excludes half flush. */
  predicate FlushRules(r: HandResult, s: Shape)
  {
    (Has(r, Chinitsu) ==> s.fullFlush)
    && (Has(r, Honitsu) ==> s.halfFlush && !Has(r, Chinitsu))
  }

  /** The last-tile yaku is haitei on a self-draw and houtei on a discard. */
  predicate LastTileRules(r: HandResult, winType: WinType, cond: Conditions)
  {
    (Has(r, Haitei) ==> cond.haitei && winType == Tsumo)
    && (Has(r, Houtei) ==> cond.haitei && winType == Ron)
  }

  /** What analyzeHand's rule table promises about the names it lists. */
  ghost predicate YakuRules(r: HandResult, s: Shape, winType: WinType, closed: bool, cond: Conditions)
  {
    DragonRules(r, s) && RiichiRules(r, cond) && ClosedHandRules(r, s, winType, closed)
    && ShapeRules(r, s) && FlushRules(r, s) && LastTileRules(r, winType, cond)
  }

  /** A result with a single entry outside the rule table satisfies the rules. */
  lemma SingleEntryRules(e: YakuEntry, s: Shape, winType: WinType, closed: bool, cond: Conditions)
    requires e.name.InvalidHand? || e.name.Furiten? || e.name == NoYaku || e.name == Tsuuiisou
    ensures forall han, fu, error, isFuriten ::
      YakuRules(HandResult([e], han, fu, error, isFuriten), s, winType, closed, cond)
  {
    NamesPush([], e);
  }

  // Each rule group holds of any list naming exactly the awarded yaku.

  /** Only the condition rules award the condition names. */
  lemma ConditionNameNotShaped(n: YakuName, s: Shape, closed: bool)
    requires IsConditionName(n)
    ensures !PatternAward(n, s, closed) && !SuitAward(n, s) && !DragonAward(n, s)
  {
  }

  lemma AwardedDragonRules(r: HandResult, s: Shape, winType: WinType, closed: bool, cond: Conditions)
    requires forall n :: Has(r, n) <==> Awarded(n, s, winType, closed, cond)
    requires s.dragonTriplets == 3 ==> r.yaku != [] && r.yaku[|r.yaku| - 1] == YakuEntry(Daisangen, 13)
    ensures DragonRules(r, s)
  {
    if s.dragonTriplets == 3 {
      forall n | IsConditionName(n)
        ensures !Has(r, n)
      {
        ConditionNameNotShaped(n, s, closed);
      }
    }
  }

  lemma AwardedRiichiRules(r: HandResult, s: Shape, winType: WinType, closed: bool, cond: Conditions)
    requires forall n :: Has(r, n) <==> Awarded(n, s, winType, closed, cond)
    ensures RiichiRules(r, cond)
  {
  }

  lemma AwardedClosedHandRules(r: HandResult, s: Shape, winType: WinType, closed: bool, cond: Conditions)
    requires forall n :: Has(r, n) <==> Awarded(n, s, winType, closed, cond)
    ensures ClosedHandRules(r, s, winType, closed)
  {
  }

  lemma AwardedShapeRules(r: HandResult, s: Shape, winType: WinType, closed: bool, cond: Conditions)
    requires forall n :: Has(r, n) <==> Awarded(n, s, winType, closed, cond)
    ensures ShapeRules(r, s)
  {
  }

  lemma AwardedFlushRules(r: HandResult, s: Shape, winType: WinType, closed: bool, cond: Conditions)
    requires forall n :: Has(r, n) <==> Awarded(n, s, winType, closed, cond)
    ensures FlushRules(r, s)
  {
  }

  lemma AwardedLastTileRules(r: HandResult, s: Shape, winType: WinType, closed: bool, cond: Conditions)
    requires forall n :: Has(r, n) <==> Awarded(n, s, winType, closed, cond)
    ensures LastTileRules(r, winType, cond)
  {
  }

  /** Any list naming exactly the awarded yaku, and ending in big three
      dragons when that is awarded, keeps every rule. */
  lemma AwardedRules(r: HandResult, s: Shape, winType: WinType, closed: bool, cond: Conditions)
    requires forall n :: Has(r, n) <==> Awarded(n, s, winType, closed, cond)
    requires s.dragonTriplets == 3 ==> r.yaku != [] && r.yaku[|r.yaku| - 1] == YakuEntry(Daisangen, 13)
    ensures YakuRules(r, s, winType, closed, cond)
  {
    AwardedDragonRules(r, s, winType, closed, cond);
    AwardedRiichiRules(r, s, winType, closed, cond);
    AwardedClosedHandRules(r, s, winType, closed, cond);
    AwardedShapeRules(r, s, winType, closed, cond);
    AwardedFlushRules(r, s, winType, closed, cond);
    AwardedLastTileRules(r, s, winType, closed, cond);
  }

  /** Big three dragons is the last entry the table pushes. */
  lemma DaisangenLast(s: Shape, winType: WinType, closed: bool, cond: Conditions)
    requires s.dragonTriplets == 3
    ensures TableEntries(s, winType, closed, cond)
      == SuitEntries(s, closed, PatternEntries(s, closed, [])) + [YakuEntry(Daisangen, 13)]
  {
  }

  /** The rule table's entries keep every rule. */
  lemma TableEntriesRules(r: HandResult, s: Shape, winType: WinType, closed: bool, cond: Conditions)
    requires r.yaku == TableEntries(s, winType, closed, cond)
    ensures YakuRules(r, s, winType, closed, cond)
  {
    forall n
      ensures Has(r, n) <==> Awarded(n, s, winType, closed, cond)
    {
      TableHas(s, winType, closed, cond, n);
    }
    if s.dragonTriplets == 3 {
      DaisangenLast(s, winType, closed, cond);
    }
    AwardedRules(r, s, winType, closed, cond);
  }

  /** The rule table's result keeps every rule. */
  lemma TableResultRules(s: Shape, winType: WinType, closed: bool, cond: Conditions)
    ensures YakuRules(TableResult(s, winType, closed, cond), s, winType, closed, cond)
  {
    var yaku := TableEntries(s, winType, closed, cond);
    var r := TableResult(s, winType, closed, cond);
    if yaku == [] {
      SingleEntryRules(YakuEntry(NoYaku, 0), s, winType, closed, cond);
    } else {
      TableEntriesRules(r, s, winType, closed, cond);
    }
  }

  /** The rule table lists big three dragons exactly for three dragon triplets. */
  lemma TableDaisangen(s: Shape, winType: WinType, closed: bool, cond: Conditions)
    ensures Has(TableResult(s, winType, closed, cond), Daisangen) <==> s.dragonTriplets == 3
  {
    var yaku := TableEntries(s, winType, closed, cond);
    TableHas(s, winType, closed, cond, Daisangen);
    if yaku == [] {
      NamesPush([], YakuEntry(NoYaku, 0));
    }
  }

  /** How analyzeHand picks its result from its checks, in the order it
      makes them: validation, furiten, all honours, then the rule table. */
  function Outcome(validation: Option<ValidationError>, furiten: Option<Tile>, allHonors: bool,
                   table: HandResult): HandResult
  {
    if validation.Some? then
      HandResult([YakuEntry(InvalidHand(validation.value), 0)], 0, 30, true, false)
    else if furiten.Some? then
      HandResult([YakuEntry(Furiten(furiten.value), 0)], 0, 30, true, true)
    else if allHonors then
      HandResult([YakuEntry(Tsuuiisou, 13)], 13, 30, false, false)
    else
      table
  }

  /** The furiten check runs only when it is switched on and the hand wins on a discard. */
  function FuritenCheck(tiles: seq<Tile>, winType: WinType, checkFuriten: bool, discards: seq<Tile>): Option<Tile>
  {
    if checkFuriten && winType == Ron then FirstDiscarded(tiles, discards) else None
  }

  /** What analyzeHand returns. The furiten switch and the discard list are
      the calculator's `handState.checkFuriten` and `handState.discardedTiles`. */
  function AnalyzeResult(tiles: seq<Tile>, winType: WinType, closed: bool, cond: Conditions,
                         checkFuriten: bool, discards: seq<Tile>): HandResult
  {
    Outcome(ValidateHandStructure(tiles), FuritenCheck(tiles, winType, checkFuriten, discards),
            AllHonors(tiles), TableResult(ShapeOf(tiles), winType, closed, cond))
  }

  /** What analyzeHand returns as written: the tiles are validated in the
      order they were picked. */
  function AnalyzeResultAsWritten(tiles: seq<Tile>, winType: WinType, closed: bool, cond: Conditions,
                                  checkFuriten: bool, discards: seq<Tile>): HandResult
  {
    Outcome(ValidateHandStructureAsWritten(tiles), FuritenCheck(tiles, winType, checkFuriten, discards),
            AllHonors(tiles), TableResult(ShapeOf(tiles), winType, closed, cond))
  }

  /** The as-written analysis agrees with AnalyzeResult on every hand except
      those the picking order makes it reject: there it returns only the
      no-winning-pattern error, although the hand is a winning one. */
  lemma AnalyzeAsWrittenAgrees(tiles: seq<Tile>, winType: WinType, closed: bool, cond: Conditions,
                               checkFuriten: bool, discards: seq<Tile>)
    ensures var w := AnalyzeResultAsWritten(tiles, winType, closed, cond, checkFuriten, discards);
      w == AnalyzeResult(tiles, winType, closed, cond, checkFuriten, discards)
      || (w == HandResult([YakuEntry(InvalidHand(NoWinningPattern), 0)], 0, 30, true, false)
          && ValidateHandStructure(tiles) == None)
  {
    AsWrittenOnlyRejectsMore(tiles);
  }

  /** The hand m2 m1 m3 p1 p1 p1 s1 s1 s1 s5 s5 s5 p9 p9, picked in that
      order, gets only the no-winning-pattern error as written, and
      AnalyzeResult gives it some other result. */
  lemma AnalyzeOutOfOrder(winType: WinType, closed: bool, cond: Conditions,
                          checkFuriten: bool, discards: seq<Tile>)
    ensures AnalyzeResultAsWritten(OutOfOrderHand(), winType, closed, cond, checkFuriten, discards)
      == HandResult([YakuEntry(InvalidHand(NoWinningPattern), 0)], 0, 30, true, false)
    ensures AnalyzeResult(OutOfOrderHand(), winType, closed, cond, checkFuriten, discards)
      != AnalyzeResultAsWritten(OutOfOrderHand(), winType, closed, cond, checkFuriten, discards)
  {
    FirstKeyOrderRejectsValidHand();
  }

  /** analyzeHand. */
  method AnalyzeHand(tiles: seq<Tile>, winType: WinType, closed: bool, cond: Conditions,
                     checkFuriten: bool, discards: seq<Tile>) returns (r: HandResult)
    ensures r == AnalyzeResult(tiles, winType, closed, cond, checkFuriten, discards)
  {
    var validationError := ValidateHandStructure(tiles);
    if validationError.Some? {
      return HandResult([YakuEntry(InvalidHand(validationError.value), 0)], 0, 30, true, false);
    }

    if checkFuriten && winType == Ron {
      var furiten := CheckFuriten(tiles, discards);
      if furiten.Some? {
        return HandResult([YakuEntry(Furiten(furiten.value), 0)], 0, 30, true, true);
      }
    }

    if AllHonors(tiles) {
      return HandResult([YakuEntry(Tsuuiisou, 13)], 13, 30, false, false);
    }

    r := EvaluateYaku(ShapeOf(tiles), winType, closed, cond);
  }

  // What analyzeHand promises.

  /** The rule table's error result has one entry, no han and 30 fu; its
      other results add up the han of their entries. */
  lemma TableTotals(s: Shape, winType: WinType, closed: bool, cond: Conditions)
    ensures var r := TableResult(s, winType, closed, cond);
      (r.error ==> r.han == 0 && r.fu == 30 && |r.yaku| == 1 && r.yaku[0].han == 0)
      && (!r.error ==> r.han == SumHan(r.yaku) && |r.yaku| >= 1)
  {
  }

  lemma OutcomeTotals(validation: Option<ValidationError>, furiten: Option<Tile>, allHonors: bool,
                      table: HandResult)
    requires table.error ==> table.han == 0 && table.fu == 30 && |table.yaku| == 1 && table.yaku[0].han == 0
    requires !table.error ==> table.han == SumHan(table.yaku) && |table.yaku| >= 1
    ensures var r := Outcome(validation, furiten, allHonors, table);
      (r.error ==> r.han == 0 && r.fu == 30 && |r.yaku| == 1 && r.yaku[0].han == 0)
      && (!r.error ==> r.han == SumHan(r.yaku) && |r.yaku| >= 1)
  {
    SumHanPush([], YakuEntry(Tsuuiisou, 13));
  }

  /** Every error result has one entry, no han and 30 fu; every other result
      adds up the han of its entries. */
  lemma AnalyzeTotals(tiles: seq<Tile>, winType: WinType, closed: bool, cond: Conditions,
                      checkFuriten: bool, discards: seq<Tile>)
    ensures var r := AnalyzeResult(tiles, winType, closed, cond, checkFuriten, discards);
      (r.error ==> r.han == 0 && r.fu == 30 && |r.yaku| == 1 && r.yaku[0].han == 0)
      && (!r.error ==> r.han == SumHan(r.yaku) && |r.yaku| >= 1)
  {
    TableTotals(ShapeOf(tiles), winType, closed, cond);
    OutcomeTotals(ValidateHandStructure(tiles), FuritenCheck(tiles, winType, checkFuriten, discards),
                  AllHonors(tiles), TableResult(ShapeOf(tiles), winType, closed, cond));
  }

  /** An invalid hand is reported with the validator's reason. */
  lemma AnalyzeInvalid(tiles: seq<Tile>, winType: WinType, closed: bool, cond: Conditions,
                       checkFuriten: bool, discards: seq<Tile>)
    requires ValidateHandStructure(tiles).Some?
    ensures AnalyzeResult(tiles, winType, closed, cond, checkFuriten, discards)
      == HandResult([YakuEntry(InvalidHand(ValidateHandStructure(tiles).value), 0)], 0, 30, true, false)
  {
  }

  /** The rule table's results are never furiten. */
  lemma TableNotFuriten(s: Shape, winType: WinType, closed: bool, cond: Conditions)
    ensures !TableResult(s, winType, closed, cond).isFuriten
  {
  }

  /** Only the furiten branch reports furiten. */
  lemma OutcomeFuriten(validation: Option<ValidationError>, furiten: Option<Tile>, allHonors: bool,
                       table: HandResult)
    requires !table.isFuriten
    ensures var r := Outcome(validation, furiten, allHonors, table);
      (r.isFuriten <==> validation == None && furiten.Some?)
      && (r.isFuriten ==> r.error && r.yaku == [YakuEntry(Furiten(furiten.value), 0)])
  {
  }

  /** A valid hand won on a discard, with the check switched on, is furiten
      exactly when one of its tiles was discarded before, and the result then
      names that tile. */
  lemma FuritenError(tiles: seq<Tile>, winType: WinType, closed: bool, cond: Conditions,
                     checkFuriten: bool, discards: seq<Tile>)
    ensures var r := AnalyzeResult(tiles, winType, closed, cond, checkFuriten, discards);
      (r.isFuriten <==>
        ValidateHandStructure(tiles) == None && checkFuriten && winType == Ron
        && (exists t :: t in tiles && t in discards))
      && (r.isFuriten ==>
        r.error && r.yaku == [YakuEntry(Furiten(FirstDiscarded(tiles, discards).value), 0)]
        && FirstDiscarded(tiles, discards).value in tiles
        && FirstDiscarded(tiles, discards).value in discards)
  {
    TableNotFuriten(ShapeOf(tiles), winType, closed, cond);
    OutcomeFuriten(ValidateHandStructure(tiles), FuritenCheck(tiles, winType, checkFuriten, discards),
                   AllHonors(tiles), TableResult(ShapeOf(tiles), winType, closed, cond));
  }

  /** A valid, non-furiten hand of honour tiles only is the all-honours
      yakuman and nothing else. */
  lemma AllHonorsYakuman(tiles: seq<Tile>, winType: WinType, closed: bool, cond: Conditions,
                         checkFuriten: bool, discards: seq<Tile>)
    requires ValidateHandStructure(tiles) == None
    requires !(checkFuriten && winType == Ron && FirstDiscarded(tiles, discards).Some?)
    requires forall t | t in tiles :: IsHonor(t)
    ensures AnalyzeResult(tiles, winType, closed, cond, checkFuriten, discards)
      == HandResult([YakuEntry(Tsuuiisou, 13)], 13, 30, false, false)
  {
  }

  /** The rule table gives 25 fu exactly to seven pairs, otherwise 30. */
  lemma TableFu(s: Shape, winType: WinType, closed: bool, cond: Conditions)
    ensures var r := TableResult(s, winType, closed, cond);
      (r.fu == 25 <==> !r.error && s.sevenPairs) && (r.fu == 25 || r.fu == 30)
  {
  }

  lemma OutcomeFu(validation: Option<ValidationError>, furiten: Option<Tile>, allHonors: bool,
                  table: HandResult, sevenPairs: bool)
    requires table.fu == 25 <==> !table.error && sevenPairs
    requires table.fu == 25 || table.fu == 30
    ensures var r := Outcome(validation, furiten, allHonors, table);
      (r.fu == 25 <==> !r.error && !allHonors && sevenPairs) && (r.fu == 25 || r.fu == 30)
  {
  }

  /** Seven pairs, and only seven pairs, scores 25 fu; everything else 30. */
  lemma AnalyzeFu(tiles: seq<Tile>, winType: WinType, closed: bool, cond: Conditions,
                  checkFuriten: bool, discards: seq<Tile>)
    ensures var r := AnalyzeResult(tiles, winType, closed, cond, checkFuriten, discards);
      (r.fu == 25 <==> !r.error && CheckSevenPairs(tiles) && !AllHonors(tiles))
      && (r.fu == 25 || r.fu == 30)
  {
    TableFu(ShapeOf(tiles), winType, closed, cond);
    OutcomeFu(ValidateHandStructure(tiles), FuritenCheck(tiles, winType, checkFuriten, discards),
              AllHonors(tiles), TableResult(ShapeOf(tiles), winType, closed, cond), CheckSevenPairs(tiles));
  }

  /** A single entry lists just its own name. */
  lemma SingleName(e: YakuEntry)
    ensures Names([e]) == {e.name}
  {
    assert [e][0].name == e.name;
  }

  lemma OutcomeDaisangen(validation: Option<ValidationError>, furiten: Option<Tile>, allHonors: bool,
                         table: HandResult, threeDragons: bool)
    requires Has(table, Daisangen) <==> threeDragons
    requires threeDragons ==> !table.error
    ensures var r := Outcome(validation, furiten, allHonors, table);
      Has(r, Daisangen) <==> !r.error && !allHonors && threeDragons
  {
    var r := Outcome(validation, furiten, allHonors, table);
    if r != table {
      SingleName(r.yaku[0]);
    }
  }

  /** Big three dragons is listed exactly for a valid hand, not all honours,
      with three dragon triplets, and it ends the evaluation. */
  lemma DaisangenEndsEvaluation(tiles: seq<Tile>, winType: WinType, closed: bool, cond: Conditions,
                                checkFuriten: bool, discards: seq<Tile>)
    ensures var r := AnalyzeResult(tiles, winType, closed, cond, checkFuriten, discards);
      Has(r, Daisangen) <==> !r.error && !AllHonors(tiles) && CountDragonTriplets(tiles) == 3
  {
    TableDaisangen(ShapeOf(tiles), winType, closed, cond);
    OutcomeDaisangen(ValidateHandStructure(tiles), FuritenCheck(tiles, winType, checkFuriten, discards),
                     AllHonors(tiles), TableResult(ShapeOf(tiles), winType, closed, cond),
                     CountDragonTriplets(tiles) == 3);
  }

  lemma OutcomeRules(validation: Option<ValidationError>, furiten: Option<Tile>, allHonors: bool,
                     table: HandResult, s: Shape, winType: WinType, closed: bool, cond: Conditions)
    requires YakuRules(table, s, winType, closed, cond)
    ensures YakuRules(Outcome(validation, furiten, allHonors, table), s, winType, closed, cond)
  {
    var r := Outcome(validation, furiten, allHonors, table);
    if r != table {
      SingleEntryRules(r.yaku[0], s, winType, closed, cond);
    }
  }

  /** Every result analyzeHand returns keeps the rule table's rules. */
  lemma AnalyzeRules(tiles: seq<Tile>, winType: WinType, closed: bool, cond: Conditions,
                     checkFuriten: bool, discards: seq<Tile>)
    ensures YakuRules(AnalyzeResult(tiles, winType, closed, cond, checkFuriten, discards),
                      ShapeOf(tiles), winType, closed, cond)
  {
    TableResultRules(ShapeOf(tiles), winType, closed, cond);
    OutcomeRules(ValidateHandStructure(tiles), FuritenCheck(tiles, winType, checkFuriten, discards),
                 AllHonors(tiles), TableResult(ShapeOf(tiles), winType, closed, cond),
                 ShapeOf(tiles), winType, closed, cond);
  }
}
