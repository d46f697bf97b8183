/** The hand-structure validator: the seven-pairs shortcut, the limit of four
    copies per tile, and the search for one pair plus four sets over the
    insertion-ordered count object. */
module HandValidator {
  import opened Tiles
  import opened TileCounts

  /** A set: three of one tile, or a run of three consecutive values. */
  datatype Meld = Triplet(tile: Tile) | Run(low: Tile)

  /** The runs the search builds: a number suit and a lowest value of at most 7. */
  predicate ValidMeld(m: Meld)
  {
    match m
    case Triplet(_) => true
    case Run(t) => IsNumberSuit(t.suit) && t.value <= 7
  }

  function MeldTiles(m: Meld): multiset<Tile>
  {
    match m
    case Triplet(t) => multiset{}[t := 3]
    case Run(t) => multiset{t, Above(t, 1), Above(t, 2)}
  }

  function MeldsMultiset(ms: seq<Meld>): multiset<Tile>
  {
    if ms == [] then multiset{} else MeldTiles(ms[0]) + MeldsMultiset(ms[1..])
  }

  /** `ms` is a list of exactly `n` valid sets whose tiles are exactly `m`. */
  predicate FormsMelds(ms: seq<Meld>, n: nat, m: multiset<Tile>)
  {
    |ms| == n && (forall i | 0 <= i < |ms| :: ValidMeld(ms[i])) && MeldsMultiset(ms) == m
  }

  /** A standard winning shape: two copies of `pair` and four sets of the rest. */
  predicate StandardSplit(m: multiset<Tile>, pair: Tile, ms: seq<Meld>)
  {
    m[pair] >= 2 && FormsMelds(ms, 4, m - multiset{}[pair := 2])
  }

  /** Seven distinct tiles, two copies of each. */
  predicate SevenPairsShape(m: multiset<Tile>)
  {
    |m| == 14 && forall t | t in m :: m[t] == 2
  }

  predicate AtMostFourCopies(m: multiset<Tile>)
  {
    forall t | t in m :: m[t] <= 4
  }

  /** Removes one run starting at `t`: `newCounts[key1..key3] -= 1` and the deletes. */
  function TakeRun(c: Counts, t: Tile): (r: Counts)
    requires WellFormed(c)
    requires Lookup(c, t) >= 1 && Lookup(c, Above(t, 1)) >= 1 && Lookup(c, Above(t, 2)) >= 1
    ensures WellFormed(r)
    ensures SumCounts(r) == SumCounts(c) - 3
  {
    var t1, t2 := Above(t, 1), Above(t, 2);
    TakeWellFormed(c, t, 1);
    TakeLookup(c, t, 1, t1);
    TakeLookup(c, t, 1, t2);
    var c1 := Take(c, t, 1);
    TakeWellFormed(c1, t1, 1);
    TakeLookup(c1, t1, 1, t2);
    var c2 := Take(c1, t1, 1);
    TakeWellFormed(c2, t2, 1);
    Take(c2, t2, 1)
  }

  lemma RemoveThree<T>(m: multiset<T>, a: T, b: T, c: T)
    ensures ((m - multiset{a}) - multiset{b}) - multiset{c} == m - multiset{a, b, c}
  {
    assert forall x :: (((m - multiset{a}) - multiset{b}) - multiset{c})[x] == (m - multiset{a, b, c})[x];
  }

  /** Removing a run removes exactly its three tiles. */
  lemma TakeRunMultiset(c: Counts, t: Tile)
    requires WellFormed(c)
    requires Lookup(c, t) >= 1 && Lookup(c, Above(t, 1)) >= 1 && Lookup(c, Above(t, 2)) >= 1
    ensures Multiset(TakeRun(c, t)) == Multiset(c) - MeldTiles(Run(t))
  {
    var t1, t2 := Above(t, 1), Above(t, 2);
    TakeWellFormed(c, t, 1);
    TakeLookup(c, t, 1, t1);
    TakeLookup(c, t, 1, t2);
    var c1 := Take(c, t, 1);
    TakeWellFormed(c1, t1, 1);
    TakeLookup(c1, t1, 1, t2);
    var c2 := Take(c1, t1, 1);
    var r := Take(c2, t2, 1);
    assert multiset{}[t := 1] == multiset{t};
    assert multiset{}[t1 := 1] == multiset{t1};
    assert multiset{}[t2 := 1] == multiset{t2};
    TakeMultiset(c, t, 1);
    TakeMultiset(c1, t1, 1);
    TakeMultiset(c2, t2, 1);
    RemoveThree(Multiset(c), t, t1, t2);
  }

  /** Removing a run keeps the keys in ascending order. */
  lemma TakeRunAscending(c: Counts, t: Tile)
    requires WellFormed(c) && Ascending(c)
    requires Lookup(c, t) >= 1 && Lookup(c, Above(t, 1)) >= 1 && Lookup(c, Above(t, 2)) >= 1
    ensures Ascending(TakeRun(c, t))
  {
    var t1, t2 := Above(t, 1), Above(t, 2);
    TakeWellFormed(c, t, 1);
    TakeLookup(c, t, 1, t1);
    TakeLookup(c, t, 1, t2);
    var c1 := Take(c, t, 1);
    TakeWellFormed(c1, t1, 1);
    TakeLookup(c1, t1, 1, t2);
    var c2 := Take(c1, t1, 1);
    TakeAscending(c, t, 1);
    TakeAscending(c1, t1, 1);
    TakeAscending(c2, t2, 1);
  }

  /** canFormSets: can the counts be used up by exactly `numSets` sets, always
      building the next set from the FIRST key of the object? */
  function CanFormSets(c: Counts, numSets: nat): (r: bool)
    requires WellFormed(c)
    ensures r ==> SumCounts(c) == 3 * numSets
    decreases numSets
  {
    if numSets == 0 then
      c == []
    else if c == [] then
      false
    else
      var first := c[0].key;
      (Lookup(c, first) >= 3 && (TakeWellFormed(c, first, 3); CanFormSets(Take(c, first, 3), numSets - 1)))
      || (IsNumberSuit(first.suit) && first.value <= 7
          && Lookup(c, first) >= 1 && Lookup(c, Above(first, 1)) >= 1 && Lookup(c, Above(first, 2)) >= 1
          && CanFormSets(TakeRun(c, first), numSets - 1))
  }

  /** Removing two copies of `k` leaves counts that form four sets. */
  predicate PairWorks(c: Counts, k: Tile)
    requires WellFormed(c)
  {
    Lookup(c, k) >= 2 && (TakeWellFormed(c, k, 2); CanFormSets(Take(c, k, 2), 4))
  }

  /** The loop of canFormWinningHand, from the key at position `i` on. */
  function TryPairs(c: Counts, i: nat): (r: bool)
    requires WellFormed(c) && i <= |c|
    ensures r <==> exists j | i <= j < |c| :: PairWorks(c, c[j].key)
    decreases |c| - i
  {
    if i == |c| then false else PairWorks(c, c[i].key) || TryPairs(c, i + 1)
  }

  /** canFormWinningHand: tries every key, in the object's order, as the pair. */
  function CanFormWinningHand(c: Counts): (r: bool)
    requires WellFormed(c)
    ensures r <==> exists j | 0 <= j < |c| :: PairWorks(c, c[j].key)
  {
    TryPairs(c, 0)
  }

  datatype ValidationError = TooManyCopies | NoWinningPattern

  /** The checks of validateHandStructure once the count object is built. */
  function ValidateCounts(c: Counts): (r: Option<ValidationError>)
    requires WellFormed(c)
    ensures r == Some(TooManyCopies) <==> exists i | 0 <= i < |c| :: c[i].n > 4
    ensures (forall i | 0 <= i < |c| :: c[i].n <= 4) && |c| == 7 && CountEqual(c, 2) == 7 ==> r == None
    ensures r == Some(NoWinningPattern) <==>
      (forall i | 0 <= i < |c| :: c[i].n <= 4) && !(|c| == 7 && CountEqual(c, 2) == 7) && !CanFormWinningHand(c)
  {
    if exists i | 0 <= i < |c| :: c[i].n > 4 then Some(TooManyCopies)
    else if CountEqual(c, 2) == 7 && |c| == 7 then None
    else if !CanFormWinningHand(c) then Some(NoWinningPattern)
    else None
  }

  /** validateHandStructure exactly as written: the count object is built in
      the order the tiles were picked. */
  function ValidateHandStructureAsWritten(tiles: seq<Tile>): (r: Option<ValidationError>)
    ensures r == Some(TooManyCopies) <==> !AtMostFourCopies(multiset(tiles))
  {
    var c := Tally(tiles);
    TooManyIffOverFour(c);
    ValidateCounts(c)
  }

  /** validateHandStructure with the tiles put through sortTiles first, so the
      first key is always the smallest tile left. */
  function ValidateHandStructure(tiles: seq<Tile>): (r: Option<ValidationError>)
    ensures r == Some(TooManyCopies) <==> !AtMostFourCopies(multiset(tiles))
  {
    var c := Tally(SortTiles(tiles));
    TooManyIffOverFour(c);
    ValidateCounts(c)
  }

  // ---------------------------------------------------------------------
  // Facts about count objects and multisets

  lemma {:induction false} MultisetKeys(c: Counts, x: Tile)
    requires x in Multiset(c)
    ensures HasKey(c, x)
    decreases |c|
  {
    if c[0].key != x {
      MultisetKeys(c[1..], x);
    }
  }

  lemma {:induction false} MultisetSize(c: Counts)
    ensures |Multiset(c)| == SumCounts(c)
    decreases |c|
  {
    if c != [] {
      MultisetSize(c[1..]);
    }
  }

  /** Some stored count exceeds 4 exactly when some tile has more than four copies. */
  lemma TooManyIffOverFour(c: Counts)
    requires WellFormed(c)
    ensures (exists i | 0 <= i < |c| :: c[i].n > 4) <==> !AtMostFourCopies(Multiset(c))
  {
    if i :| 0 <= i < |c| && c[i].n > 4 {
      EntryLookup(c, i);
      LookupIsMultiplicity(c, c[i].key);
    }
    if t :| t in Multiset(c) && Multiset(c)[t] > 4 {
      MultisetKeys(c, t);
      var i := KeyIndex(c, t);
      EntryLookup(c, i);
      LookupIsMultiplicity(c, t);
    }
  }

  /** The shortcut's test on the count object is the seven-pairs shape. */
  lemma SevenPairsIff(c: Counts)
    requires WellFormed(c)
    ensures |c| == 7 && CountEqual(c, 2) == 7 <==> SevenPairsShape(Multiset(c))
  {
    MultisetSize(c);
    if |c| == 7 && CountEqual(c, 2) == 7 {
      AllPairsSum(c);
      forall t | t in Multiset(c) ensures Multiset(c)[t] == 2 {
        MultisetKeys(c, t);
        var i := KeyIndex(c, t);
        EntryLookup(c, i);
        LookupIsMultiplicity(c, t);
      }
    }
    if SevenPairsShape(Multiset(c)) {
      forall i | 0 <= i < |c| ensures c[i].n == 2 {
        EntryLookup(c, i);
        LookupIsMultiplicity(c, c[i].key);
      }
      AllPairsSum(c);
    }
  }

  lemma {:induction false} MeldsAppend(a: seq<Meld>, b: seq<Meld>)
    ensures MeldsMultiset(a + b) == MeldsMultiset(a) + MeldsMultiset(b)
    decreases |a|
  {
    if a == [] {
      assert a + b == b;
    } else {
      assert (a + b)[0] == a[0];
      assert (a + b)[1..] == a[1..] + b;
      MeldsAppend(a[1..], b);
    }
  }

  /** A tile of the split lies in one of its sets. */
  lemma {:induction false} MeldContaining(ms: seq<Meld>, x: Tile) returns (i: nat)
    requires x in MeldsMultiset(ms)
    ensures i < |ms| && x in MeldTiles(ms[i])
    decreases |ms|
  {
    assert ms != [];
    assert MeldsMultiset(ms) == MeldTiles(ms[0]) + MeldsMultiset(ms[1..]);
    if x in MeldTiles(ms[0]) {
      i := 0;
    } else {
      var j := MeldContaining(ms[1..], x);
      i := j + 1;
    }
  }

  /** Dropping the set at `i` drops exactly its tiles. */
  lemma MeldsRemove(ms: seq<Meld>, i: nat)
    requires i < |ms|
    ensures MeldsMultiset(ms) == MeldTiles(ms[i]) + MeldsMultiset(ms[..i] + ms[i + 1..])
  {
    var pre, post := ms[..i], ms[i + 1..];
    var tail := [ms[i]] + post;
    assert ms == pre + tail;
    MeldsAppend(pre, tail);
    assert MeldsMultiset(tail) == MeldTiles(ms[i]) + MeldsMultiset(post) by {
      assert tail[0] == ms[i] && tail[1..] == post;
    }
    MeldsAppend(pre, post);
  }

  lemma {:induction false} FormsMeldsDrop(ms: seq<Meld>, n: nat, m: multiset<Tile>, i: nat)
    requires FormsMelds(ms, n, m) && i < |ms|
    requires m == MeldTiles(ms[i]) + MeldsMultiset(ms[..i] + ms[i + 1..])
    ensures FormsMelds(ms[..i] + ms[i + 1..], n - 1, m - MeldTiles(ms[i]))
  {
    var rest := ms[..i] + ms[i + 1..];
    forall j | 0 <= j < |rest| ensures ValidMeld(rest[j]) {
      if j < i {
        assert rest[j] == ms[j];
      } else {
        assert rest[j] == ms[j + 1];
      }
    }
  }

  // ---------------------------------------------------------------------
  // The search is sound

  lemma AddBack<T>(m: multiset<T>, s: multiset<T>)
    requires s <= m
    ensures s + (m - s) == m
  {
    assert forall x :: (s + (m - s))[x] == m[x];
  }

  lemma PrependMeld(m: Meld, ms: seq<Meld>, n: nat, rest: multiset<Tile>)
    requires ValidMeld(m) && FormsMelds(ms, n, rest)
    ensures FormsMelds([m] + ms, n + 1, MeldTiles(m) + rest)
  {
    var all := [m] + ms;
    assert all[0] == m && all[1..] == ms;
    forall i | 0 <= i < |all| ensures ValidMeld(all[i]) {
      if i > 0 {
        assert all[i] == ms[i - 1];
      }
    }
  }

  /** Building the triplet of `t` removes exactly its three tiles. */
  lemma TripletStep(c: Counts, t: Tile)
    requires WellFormed(c) && Lookup(c, t) >= 3
    ensures WellFormed(Take(c, t, 3))
    ensures MeldTiles(Triplet(t)) <= Multiset(c)
    ensures Multiset(Take(c, t, 3)) == Multiset(c) - MeldTiles(Triplet(t))
    ensures Ascending(c) ==> Ascending(Take(c, t, 3))
  {
    LookupIsMultiplicity(c, t);
    TakeWellFormed(c, t, 3);
    TakeMultiset(c, t, 3);
    if Ascending(c) {
      TakeAscending(c, t, 3);
    }
  }

  /** Building the run from `t` removes exactly its three tiles. */
  lemma RunStep(c: Counts, t: Tile)
    requires WellFormed(c)
    requires Lookup(c, t) >= 1 && Lookup(c, Above(t, 1)) >= 1 && Lookup(c, Above(t, 2)) >= 1
    ensures MeldTiles(Run(t)) <= Multiset(c)
    ensures Multiset(TakeRun(c, t)) == Multiset(c) - MeldTiles(Run(t))
    ensures Ascending(c) ==> Ascending(TakeRun(c, t))
  {
    LookupIsMultiplicity(c, t);
    LookupIsMultiplicity(c, Above(t, 1));
    LookupIsMultiplicity(c, Above(t, 2));
    TakeRunMultiset(c, t);
    if Ascending(c) {
      TakeRunAscending(c, t);
    }
  }

  /** The search's first step when it answers true: the set it builds is valid,
      its tiles are counted, and the counts it leaves still answer true. */
  lemma SoundStep(c: Counts, numSets: nat) returns (m: Meld, rest: Counts)
    requires WellFormed(c) && numSets > 0 && CanFormSets(c, numSets)
    ensures ValidMeld(m) && WellFormed(rest) && CanFormSets(rest, numSets - 1)
    ensures MeldTiles(m) <= Multiset(c) && Multiset(rest) == Multiset(c) - MeldTiles(m)
  {
    var first := c[0].key;
    if Lookup(c, first) >= 3 && (TakeWellFormed(c, first, 3); CanFormSets(Take(c, first, 3), numSets - 1)) {
      m, rest := Triplet(first), Take(c, first, 3);
      TripletStep(c, first);
    } else {
      m, rest := Run(first), TakeRun(c, first);
      RunStep(c, first);
    }
  }

  /** A true answer from canFormSets comes with exactly `numSets` valid sets
      made of exactly the tiles counted. */
  lemma {:induction false} CanFormSetsSound(c: Counts, numSets: nat) returns (ms: seq<Meld>)
    requires WellFormed(c) && CanFormSets(c, numSets)
    ensures FormsMelds(ms, numSets, Multiset(c))
    decreases numSets
  {
    if numSets == 0 {
      assert c == [];
      ms := [];
    } else {
      var m, rest := SoundStep(c, numSets);
      var others := CanFormSetsSound(rest, numSets - 1);
      AddBack(Multiset(c), MeldTiles(m));
      PrependMeld(m, others, numSets - 1, Multiset(rest));
      ms := [m] + others;
    }
  }

  /** With no sets left to build the answer is "no keys left"; with sets left
      and no keys the answer is false. */
  lemma CanFormSetsBase(c: Counts, numSets: nat)
    requires WellFormed(c)
    ensures numSets == 0 ==> (CanFormSets(c, numSets) <==> Multiset(c) == multiset{})
    ensures c == [] && numSets > 0 ==> !CanFormSets(c, numSets)
  {
    MultisetSize(c);
    if numSets == 0 && c != [] {
      assert c[0].n > 0;
    }
  }

  /** canFormWinningHand answers true only when two copies of some counted
      tile and four sets use up every tile. */
  lemma CanFormWinningHandSound(c: Counts)
    requires WellFormed(c) && CanFormWinningHand(c)
    ensures exists k, ms :: StandardSplit(Multiset(c), k, ms)
  {
    var j :| 0 <= j < |c| && PairWorks(c, c[j].key);
    var k := c[j].key;
    TakeWellFormed(c, k, 2);
    TakeMultiset(c, k, 2);
    var rest := Take(c, k, 2);
    var ms := CanFormSetsSound(rest, 4);
    LookupIsMultiplicity(c, k);
    assert StandardSplit(Multiset(c), k, ms);
  }

  // ---------------------------------------------------------------------
  // The search is complete when the keys are in ascending order

  /** In a split of the tiles of an ascending object, the set holding the
      first key starts with it. */
  lemma FirstKeyStartsMeld(c: Counts, ms: seq<Meld>, i: nat)
    requires WellFormed(c) && Ascending(c) && c != []
    requires i < |ms| && c[0].key in MeldTiles(ms[i]) && MeldTiles(ms[i]) <= Multiset(c)
    ensures ms[i] == Triplet(c[0].key) || ms[i] == Run(c[0].key)
  {
    var first := c[0].key;
    match ms[i] {
      case Triplet(t) =>
        assert t == first;
      case Run(t) =>
        assert t in Multiset(c);
        MultisetKeys(c, t);
        AscendingFirstIsLeast(c, t);
    }
  }

  /** A split of the tiles of an ascending object into sets has a set
      starting at the first key; the other sets split the rest. */
  lemma FirstMeld(c: Counts, numSets: nat, ms: seq<Meld>) returns (m: Meld, rest: seq<Meld>)
    requires WellFormed(c) && Ascending(c) && numSets > 0
    requires FormsMelds(ms, numSets, Multiset(c))
    ensures c != [] && (m == Triplet(c[0].key) || m == Run(c[0].key)) && ValidMeld(m)
    ensures MeldTiles(m) <= Multiset(c)
    ensures FormsMelds(rest, numSets - 1, Multiset(c) - MeldTiles(m))
  {
    MultisetSize(c);
    assert |MeldTiles(ms[0])| == 3;
    assert MeldsMultiset(ms) == MeldTiles(ms[0]) + MeldsMultiset(ms[1..]);
    assert c != [];
    var first := c[0].key;
    assert first in Multiset(c);
    var i := MeldContaining(ms, first);
    MeldsRemove(ms, i);
    m := ms[i];
    FormsMeldsDrop(ms, numSets, Multiset(c), i);
    rest := ms[..i] + ms[i + 1..];
    FirstKeyStartsMeld(c, ms, i);
  }

  lemma EmptySplit(c: Counts, ms: seq<Meld>)
    requires WellFormed(c) && FormsMelds(ms, 0, Multiset(c))
    ensures CanFormSets(c, 0)
  {
    MultisetSize(c);
    assert ms == [];
    assert c == [];
  }

  lemma RunFits(c: Counts, t: Tile)
    requires Distinct(c) && MeldTiles(Run(t)) <= Multiset(c)
    ensures Lookup(c, t) >= 1 && Lookup(c, Above(t, 1)) >= 1 && Lookup(c, Above(t, 2)) >= 1
  {
    LookupIsMultiplicity(c, t);
    LookupIsMultiplicity(c, Above(t, 1));
    LookupIsMultiplicity(c, Above(t, 2));
  }

  lemma ByTriplet(c: Counts, numSets: nat)
    requires WellFormed(c) && c != [] && numSets > 0 && Lookup(c, c[0].key) >= 3
    requires WellFormed(Take(c, c[0].key, 3)) && CanFormSets(Take(c, c[0].key, 3), numSets - 1)
    ensures CanFormSets(c, numSets)
  {
  }

  /** The search builds the triplet of the first key and goes on to succeed. */
  lemma {:induction false} CompleteByTriplet(c: Counts, numSets: nat, rest: seq<Meld>)
    requires WellFormed(c) && Ascending(c) && c != [] && numSets > 0
    requires Lookup(c, c[0].key) >= 3
    requires FormsMelds(rest, numSets - 1, Multiset(c) - MeldTiles(Triplet(c[0].key)))
    ensures CanFormSets(c, numSets)
    decreases numSets, 0
  {
    var first := c[0].key;
    TripletStep(c, first);
    CanFormSetsComplete(Take(c, first, 3), numSets - 1, rest);
    ByTriplet(c, numSets);
  }

  /** The search builds the run from the first key and goes on to succeed. */
  lemma {:induction false} CompleteByRun(c: Counts, numSets: nat, rest: seq<Meld>)
    requires WellFormed(c) && Ascending(c) && c != [] && numSets > 0
    requires IsNumberSuit(c[0].key.suit) && c[0].key.value <= 7
    requires Lookup(c, c[0].key) >= 1 && Lookup(c, Above(c[0].key, 1)) >= 1 && Lookup(c, Above(c[0].key, 2)) >= 1
    requires FormsMelds(rest, numSets - 1, Multiset(TakeRun(c, c[0].key)))
    ensures CanFormSets(c, numSets)
    decreases numSets, 0
  {
    TakeRunAscending(c, c[0].key);
    CanFormSetsComplete(TakeRun(c, c[0].key), numSets - 1, rest);
  }

  /** When the keys ascend, the first key is the smallest tile, so every
      split into sets has a set that starts with it and the search finds one. */
  lemma {:induction false} CanFormSetsComplete(c: Counts, numSets: nat, ms: seq<Meld>)
    requires WellFormed(c) && Ascending(c)
    requires FormsMelds(ms, numSets, Multiset(c))
    ensures CanFormSets(c, numSets)
    decreases numSets, 1
  {
    if numSets == 0 {
      EmptySplit(c, ms);
    } else {
      var m, rest := FirstMeld(c, numSets, ms);
      if m == Triplet(c[0].key) {
        LookupIsMultiplicity(c, c[0].key);
        CompleteByTriplet(c, numSets, rest);
      } else {
        RunFits(c, c[0].key);
        RunStep(c, c[0].key);
        CompleteByRun(c, numSets, rest);
      }
    }
  }

  lemma CanFormWinningHandComplete(c: Counts, k: Tile, ms: seq<Meld>)
    requires WellFormed(c) && Ascending(c)
    requires StandardSplit(Multiset(c), k, ms)
    ensures CanFormWinningHand(c)
  {
    LookupIsMultiplicity(c, k);
    MultisetKeys(c, k);
    var j := KeyIndex(c, k);
    TakeWellFormed(c, k, 2);
    TakeMultiset(c, k, 2);
    TakeAscending(c, k, 2);
    CanFormSetsComplete(Take(c, k, 2), 4, ms);
    assert PairWorks(c, c[j].key);
  }

  // ---------------------------------------------------------------------
  // What validation accepts

  /** Whatever order the tiles came in, an accepted hand has at most four
      copies of each tile and is seven pairs or one pair plus four sets. */
  lemma ValidateAsWrittenSound(tiles: seq<Tile>)
    requires ValidateHandStructureAsWritten(tiles) == None
    ensures AtMostFourCopies(multiset(tiles))
    ensures SevenPairsShape(multiset(tiles)) || exists k, ms :: StandardSplit(multiset(tiles), k, ms)
  {
    var c := Tally(tiles);
    SevenPairsIff(c);
    if !(|c| == 7 && CountEqual(c, 2) == 7) {
      CanFormWinningHandSound(c);
    }
  }

  /** After sorting, validation accepts exactly the hands with at most four
      copies of each tile that are seven pairs or one pair plus four sets. */
  lemma ValidateHandStructureCorrect(tiles: seq<Tile>)
    ensures ValidateHandStructure(tiles) == None <==>
      AtMostFourCopies(multiset(tiles))
      && (SevenPairsShape(multiset(tiles)) || exists k, ms :: StandardSplit(multiset(tiles), k, ms))
  {
    var sorted := SortTiles(tiles);
    var c := Tally(sorted);
    SevenPairsIff(c);
    TallySortedAscending(sorted);
    if ValidateHandStructure(tiles) == None && !(|c| == 7 && CountEqual(c, 2) == 7) {
      CanFormWinningHandSound(c);
    }
    if exists k, ms :: StandardSplit(multiset(tiles), k, ms) {
      var k, ms :| StandardSplit(multiset(tiles), k, ms);
      CanFormWinningHandComplete(c, k, ms);
    }
  }

  /** The two validators differ only where the as-written one reports no
      winning pattern: whatever it accepts the corrected one accepts, and
      both report too many copies for the same hands. */
  lemma AsWrittenOnlyRejectsMore(tiles: seq<Tile>)
    ensures ValidateHandStructureAsWritten(tiles) == None ==> ValidateHandStructure(tiles) == None
    ensures ValidateHandStructureAsWritten(tiles) == Some(TooManyCopies) <==>
      ValidateHandStructure(tiles) == Some(TooManyCopies)
    ensures ValidateHandStructureAsWritten(tiles) != ValidateHandStructure(tiles) ==>
      ValidateHandStructureAsWritten(tiles) == Some(NoWinningPattern) && ValidateHandStructure(tiles) == None
  {
    ValidateHandStructureCorrect(tiles);
    if ValidateHandStructureAsWritten(tiles) == None {
      ValidateAsWrittenSound(tiles);
    }
  }

  // ---------------------------------------------------------------------
  // The first-key search rejects hands whose tiles were picked out of order

  /** The hand m2 m1 m3 p1 p1 p1 s1 s1 s1 s5 s5 s5 p9 p9 in picking order. */
  function OutOfOrderHand(): seq<Tile>
  {
    [Tile(Man, 2), Tile(Man, 1), Tile(Man, 3)] + [Tile(Pin, 1), Tile(Pin, 1), Tile(Pin, 1)]
    + [Tile(Sou, 1), Tile(Sou, 1), Tile(Sou, 1)] + [Tile(Sou, 5), Tile(Sou, 5), Tile(Sou, 5)]
    + [Tile(Pin, 9), Tile(Pin, 9)]
  }

  /** A first key whose count is below 3 and that has no tile two above it
      can start no set, so no split is found. */
  lemma StuckFirstKey(c: Counts, numSets: nat)
    requires WellFormed(c) && c != [] && numSets > 0
    requires c[0].n < 3 && Lookup(c, Above(c[0].key, 2)) == 0
    ensures !CanFormSets(c, numSets)
  {
  }

  /** Whenever the first tile picked occurs once and the tile two above it is
      not in the hand, the as-written validator rejects the hand: every pair
      it tries leaves that tile as the first key, and no set starts there. */
  lemma FirstTileStuckRejects(tiles: seq<Tile>)
    requires tiles != [] && multiset(tiles)[tiles[0]] == 1 && multiset(tiles)[Above(tiles[0], 2)] == 0
    requires AtMostFourCopies(multiset(tiles))
    ensures ValidateHandStructureAsWritten(tiles) == Some(NoWinningPattern)
  {
    var c := Tally(tiles);
    var first, high := tiles[0], Above(tiles[0], 2);
    assert high !in tiles;
    TallyFirstKey(tiles);
    EntryLookup(c, 0);
    TallyLookup(tiles, first);
    assert c[0].n == 1;
    assert !HasKey(c, high);
    forall j | 0 <= j < |c| ensures !PairWorks(c, c[j].key) {
      var k := c[j].key;
      if Lookup(c, k) >= 2 {
        TakeWellFormed(c, k, 2);
        var rest := Take(c, k, 2);
        assert rest[0] == c[0];
        LookupAbsent(rest, high);
        StuckFirstKey(rest, 4);
      }
    }
    TooManyIffOverFour(c);
  }

  /** The sets of the hand: m1-m2-m3, p1 p1 p1, s1 s1 s1, s5 s5 s5. */
  function OutOfOrderMelds(): seq<Meld>
  {
    [Run(Tile(Man, 1)), Triplet(Tile(Pin, 1)), Triplet(Tile(Sou, 1)), Triplet(Tile(Sou, 5))]
  }

  /** The tiles of the hand, as the multiset of its sets plus the pair. */
  function OutOfOrderMultiset(): multiset<Tile>
  {
    (multiset{Tile(Man, 1), Tile(Man, 2), Tile(Man, 3)} + multiset{}[Tile(Pin, 1) := 3]
     + multiset{}[Tile(Sou, 1) := 3] + multiset{}[Tile(Sou, 5) := 3]) + multiset{}[Tile(Pin, 9) := 2]
  }

  lemma OutOfOrderTiles()
    ensures multiset(OutOfOrderHand()) == OutOfOrderMultiset()
  {
    var p1, s1, s5, p9 := Tile(Pin, 1), Tile(Sou, 1), Tile(Sou, 5), Tile(Pin, 9);
    var a, b, c, d, e := [Tile(Man, 2), Tile(Man, 1), Tile(Man, 3)], [p1, p1, p1], [s1, s1, s1], [s5, s5, s5], [p9, p9];
    ConcatMultiset(a, b, c, d, e);
    OutOfOrderRunPart();
    Copies(p1, 3);
    Copies(s1, 3);
    Copies(s5, 3);
    Copies(p9, 2);
  }

  lemma ConcatMultiset(a: seq<Tile>, b: seq<Tile>, c: seq<Tile>, d: seq<Tile>, e: seq<Tile>)
    ensures multiset(a + b + c + d + e) == multiset(a) + multiset(b) + multiset(c) + multiset(d) + multiset(e)
  {
  }

  lemma OutOfOrderRunPart()
    ensures multiset([Tile(Man, 2), Tile(Man, 1), Tile(Man, 3)]) == multiset{Tile(Man, 1), Tile(Man, 2), Tile(Man, 3)}
  {
  }

  /** `n` copies of `t` in a row hold `n` copies of `t`. */
  lemma {:induction false} Copies(t: Tile, n: nat)
    ensures multiset(seq(n, _ => t)) == multiset{}[t := n]
  {
    if n > 0 {
      Copies(t, n - 1);
      assert seq(n, _ => t) == seq(n - 1, _ => t) + [t];
    }
  }

  lemma OutOfOrderMeldTiles()
    ensures MeldsMultiset(OutOfOrderMelds()) ==
      multiset{Tile(Man, 1), Tile(Man, 2), Tile(Man, 3)} + multiset{}[Tile(Pin, 1) := 3]
      + multiset{}[Tile(Sou, 1) := 3] + multiset{}[Tile(Sou, 5) := 3]
  {
    var ms := OutOfOrderMelds();
    assert MeldTiles(ms[0]) == multiset{Tile(Man, 1), Tile(Man, 2), Tile(Man, 3)};
  }

  lemma OutOfOrderMeldsValid()
    ensures forall i | 0 <= i < |OutOfOrderMelds()| :: ValidMeld(OutOfOrderMelds()[i])
  {
  }

  lemma AddSub<T>(x: multiset<T>, p: multiset<T>)
    ensures (x + p) - p == x
  {
    assert forall o :: ((x + p) - p)[o] == x[o];
  }

  /** The hand is a pair of p9 and four sets. */
  lemma OutOfOrderIsStandard()
    ensures StandardSplit(multiset(OutOfOrderHand()), Tile(Pin, 9), OutOfOrderMelds())
  {
    OutOfOrderTiles();
    OutOfOrderMeldTiles();
    OutOfOrderMeldsValid();
    AddSub(MeldsMultiset(OutOfOrderMelds()), multiset{}[Tile(Pin, 9) := 2]);
  }

  /** The as-written validator rejects a hand that is one pair plus four sets;
      the corrected one accepts it. */
  lemma FirstKeyOrderRejectsValidHand()
    ensures ValidateHandStructureAsWritten(OutOfOrderHand()) == Some(NoWinningPattern)
    ensures ValidateHandStructure(OutOfOrderHand()) == None
  {
    var tiles := OutOfOrderHand();
    OutOfOrderPremises();
    FirstTileStuckRejects(tiles);
    OutOfOrderIsStandard();
    ValidateHandStructureCorrect(tiles);
  }

  lemma OutOfOrderCopies(t: Tile)
    ensures OutOfOrderMultiset()[t] <= 3
  {
    var m := OutOfOrderMultiset();
    if t == Tile(Pin, 1) || t == Tile(Sou, 1) || t == Tile(Sou, 5) {
      assert m[t] == 3;
    } else if t == Tile(Pin, 9) {
      assert m[t] == 2;
    } else {
      assert m[t] <= 1;
    }
  }

  lemma OutOfOrderAtMostFour()
    ensures AtMostFourCopies(OutOfOrderMultiset())
  {
    var m := OutOfOrderMultiset();
    forall t | t in m ensures m[t] <= 4 {
      OutOfOrderCopies(t);
    }
  }

  /** What the rejection needs of any hand with these tiles. */
  lemma OutOfOrderCounts(h: seq<Tile>)
    requires multiset(h) == OutOfOrderMultiset()
    ensures multiset(h)[Tile(Man, 2)] == 1 && multiset(h)[Tile(Man, 4)] == 0
    ensures AtMostFourCopies(multiset(h))
  {
    OutOfOrderAtMostFour();
    assert OutOfOrderMultiset()[Tile(Man, 2)] == 1;
    assert OutOfOrderMultiset()[Tile(Man, 4)] == 0;
  }

  lemma OutOfOrderPremises()
    ensures OutOfOrderHand()[0] == Tile(Man, 2)
    ensures multiset(OutOfOrderHand())[Tile(Man, 2)] == 1 && multiset(OutOfOrderHand())[Tile(Man, 4)] == 0
    ensures AtMostFourCopies(multiset(OutOfOrderHand()))
  {
    OutOfOrderTiles();
    OutOfOrderCounts(OutOfOrderHand());
  }
}
