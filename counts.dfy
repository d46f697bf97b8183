/** The tile-count objects the scorer builds with `counts[key] = (counts[key] || 0) + 1`.
    A JavaScript object enumerates string keys such as "m-1" in the order they were
    first added, and that order decides which key the set search looks at first, so a
    count object is modelled as its entries in enumeration order. Copying the object
    (`{...counts}`) is a value copy here; decrementing a key keeps its place and
    deleting a key drops its entry. */
module TileCounts {
  import opened Tiles

  datatype Entry = Entry(key: Tile, n: nat)

  type Counts = seq<Entry>

  /** `counts[key]`, with a missing key read as 0. */
  function Lookup(c: Counts, k: Tile): nat
  {
    if c == [] then 0 else if c[0].key == k then c[0].n else Lookup(c[1..], k)
  }

  predicate HasKey(c: Counts, k: Tile)
  {
    c != [] && (c[0].key == k || HasKey(c[1..], k))
  }

  /** No key occurs twice: true of every JavaScript object. */
  predicate Distinct(c: Counts)
  {
    c == [] || (!HasKey(c[1..], c[0].key) && Distinct(c[1..]))
  }

  /** Keys whose count reaches 0 are deleted, so every stored count is positive. */
  predicate Positive(c: Counts)
  {
    forall i | 0 <= i < |c| :: c[i].n > 0
  }

  predicate WellFormed(c: Counts)
  {
    Distinct(c) && Positive(c)
  }

  ghost predicate AllKeysAbove(c: Counts, t: Tile)
  {
    forall x :: HasKey(c, x) ==> TileLt(t, x)
  }

  /** The keys are enumerated in strictly increasing tile order. */
  ghost predicate Ascending(c: Counts)
  {
    c == [] || (AllKeysAbove(c[1..], c[0].key) && Ascending(c[1..]))
  }

  /** The tiles a count object stands for. */
  function Multiset(c: Counts): multiset<Tile>
  {
    if c == [] then multiset{} else multiset{}[c[0].key := c[0].n] + Multiset(c[1..])
  }

  /** The number of tiles a count object stands for. */
  function SumCounts(c: Counts): nat
  {
    if c == [] then 0 else c[0].n + SumCounts(c[1..])
  }

  lemma LookupAbsent(c: Counts, k: Tile)
    requires !HasKey(c, k)
    ensures Lookup(c, k) == 0 && Multiset(c)[k] == 0
  {
  }

  lemma HeadNotInTail(c: Counts)
    requires c != []
    ensures Distinct(c) ==> Lookup(c[1..], c[0].key) == 0 && Multiset(c[1..])[c[0].key] == 0
  {
    if Distinct(c) {
      LookupAbsent(c[1..], c[0].key);
    }
  }

  lemma {:induction false} MultisetAppend(a: Counts, b: Counts)
    ensures Multiset(a + b) == Multiset(a) + Multiset(b)
    decreases |a|
  {
    if a == [] {
      assert a + b == b;
    } else {
      assert (a + b)[0] == a[0] && (a + b)[1..] == a[1..] + b;
      MultisetAppend(a[1..], b);
    }
  }

  lemma {:induction false} LookupIsMultiplicity(c: Counts, k: Tile)
    requires Distinct(c)
    ensures Multiset(c)[k] == Lookup(c, k)
    decreases |c|
  {
    if c != [] {
      LookupIsMultiplicity(c[1..], k);
      if c[0].key == k {
        LookupAbsent(c[1..], k);
      }
    }
  }

  lemma {:induction false} HasKeyIffPositive(c: Counts, k: Tile)
    requires Positive(c)
    ensures HasKey(c, k) <==> Lookup(c, k) > 0
    decreases |c|
  {
    if c != [] && c[0].key != k {
      HasKeyIffPositive(c[1..], k);
    }
  }

  /** Every stored count of a well-formed object is what a lookup of its key gives. */
  lemma {:induction false} EntryLookup(c: Counts, i: nat)
    requires Distinct(c) && i < |c|
    ensures Lookup(c, c[i].key) == c[i].n
    decreases i
  {
    if i > 0 {
      EntryLookup(c[1..], i - 1);
      if c[0].key == c[i].key {
        KeyAt(c[1..], i - 1);
      }
    }
  }

  lemma {:induction false} KeyAt(c: Counts, i: nat)
    requires i < |c|
    ensures HasKey(c, c[i].key)
    decreases i
  {
    if i > 0 {
      KeyAt(c[1..], i - 1);
    }
  }

  /** The position of a key. */
  lemma {:induction false} KeyIndex(c: Counts, k: Tile) returns (i: nat)
    requires HasKey(c, k)
    ensures i < |c| && c[i].key == k
    decreases |c|
  {
    if c[0].key == k {
      i := 0;
    } else {
      var j := KeyIndex(c[1..], k);
      i := j + 1;
    }
  }

  /** Two entries with the same key are the same entry. */
  lemma {:induction false} KeysDistinct(c: Counts, i: nat, j: nat)
    requires Distinct(c) && i < |c| && j < |c| && c[i].key == c[j].key
    ensures i == j
    decreases |c|
  {
    if i == 0 && j > 0 {
      KeyAt(c[1..], j - 1);
    } else if j == 0 && i > 0 {
      KeyAt(c[1..], i - 1);
    } else if i > 0 && j > 0 {
      KeysDistinct(c[1..], i - 1, j - 1);
    }
  }

  lemma AscendingDistinct(c: Counts)
    requires Ascending(c)
    ensures Distinct(c)
    decreases |c|
  {
    if c != [] {
      AscendingDistinct(c[1..]);
    }
  }

  /** The first key of an ascending object is the smallest tile it holds. */
  lemma AscendingFirstIsLeast(c: Counts, x: Tile)
    requires Ascending(c) && HasKey(c, x)
    ensures TileLe(c[0].key, x)
  {
  }

  /** `counts[key] = (counts[key] || 0) + 1` */
  function Add(c: Counts, t: Tile): (r: Counts)
    ensures forall k :: HasKey(r, k) <==> HasKey(c, k) || k == t
    ensures SumCounts(r) == SumCounts(c) + 1
  {
    if c == [] then
      [Entry(t, 1)]
    else if c[0].key == t then
      [Entry(t, c[0].n + 1)] + c[1..]
    else
      var r := [c[0]] + Add(c[1..], t);
      assert r[1..] == Add(c[1..], t);
      r
  }

  /** A key seen for the first time is enumerated after every existing key. */
  lemma {:induction false} AddNewKey(c: Counts, t: Tile)
    requires !HasKey(c, t)
    ensures Add(c, t) == c + [Entry(t, 1)]
    decreases |c|
  {
    if c != [] {
      AddNewKey(c[1..], t);
      assert c == [c[0]] + c[1..];
    }
  }

  /** A key seen again keeps its place and its count goes up by one. */
  lemma {:induction false} AddExistingKey(c: Counts, t: Tile, i: nat)
    requires Distinct(c) && i < |c| && c[i].key == t
    ensures Add(c, t) == c[i := Entry(t, c[i].n + 1)]
    decreases i
  {
    var e := Entry(t, c[i].n + 1);
    if i == 0 {
      assert c[0 := e] == [e] + c[1..];
    } else {
      if c[0].key == t {
        KeyAt(c[1..], i - 1);
        assert false;
      }
      AddExistingKey(c[1..], t, i - 1);
      assert Add(c, t) == [c[0]] + c[1..][i - 1 := e];
      assert c[i := e] == [c[0]] + c[1..][i - 1 := e];
    }
  }

  lemma {:induction false} AddKeepsWellFormed(c: Counts, t: Tile)
    requires WellFormed(c)
    ensures WellFormed(Add(c, t))
    ensures Multiset(Add(c, t)) == Multiset(c) + multiset{t}
    decreases |c|
  {
    if c == [] {
    } else if c[0].key == t {
      var r := Add(c, t);
      assert r[1..] == c[1..];
      assert multiset{}[t := c[0].n + 1] == multiset{}[t := c[0].n] + multiset{t};
    } else {
      AddKeepsWellFormed(c[1..], t);
      var r := Add(c, t);
      assert r[1..] == Add(c[1..], t);
    }
  }

  lemma {:induction false} AddKeepsAscending(c: Counts, t: Tile)
    requires Ascending(c)
    requires forall k :: HasKey(c, k) ==> TileLe(k, t)
    ensures Ascending(Add(c, t))
    decreases |c|
  {
    if c != [] && c[0].key != t {
      AddKeepsAscending(c[1..], t);
      var r := Add(c, t);
      assert r[1..] == Add(c[1..], t);
    } else if c != [] {
      var r := Add(c, t);
      assert r[1..] == c[1..];
    }
  }

  /** The count object the source builds from a tile list with forEach. */
  function Tally(tiles: seq<Tile>): (r: Counts)
    ensures WellFormed(r)
    ensures Multiset(r) == multiset(tiles)
    ensures SumCounts(r) == |tiles|
    ensures forall k :: HasKey(r, k) <==> k in tiles
  {
    if tiles == [] then []
    else
      var init := tiles[..|tiles| - 1];
      var last := tiles[|tiles| - 1];
      assert tiles == init + [last];
      AddKeepsWellFormed(Tally(init), last);
      Add(Tally(init), last)
  }

  lemma TallySnoc(tiles: seq<Tile>, t: Tile)
    ensures Tally(tiles + [t]) == Add(Tally(tiles), t)
  {
    assert (tiles + [t])[..|tiles|] == tiles;
  }

  /** The first key of a tally is the first tile tallied. */
  lemma {:induction false} TallyFirstKey(tiles: seq<Tile>)
    requires tiles != []
    ensures Tally(tiles) != [] && Tally(tiles)[0].key == tiles[0]
    decreases |tiles|
  {
    var init := tiles[..|tiles| - 1];
    assert tiles == init + [tiles[|tiles| - 1]];
    if init != [] {
      TallyFirstKey(init);
      assert init[0] == tiles[0];
    }
  }

  /** Tallying sorted tiles enumerates the keys in ascending order. */
  lemma {:induction false} TallySortedAscending(tiles: seq<Tile>)
    requires Sorted(tiles)
    ensures Ascending(Tally(tiles))
    decreases |tiles|
  {
    if tiles != [] {
      var init := tiles[..|tiles| - 1];
      var last := tiles[|tiles| - 1];
      assert tiles == init + [last];
      TallySortedAscending(init);
      var c := Tally(init);
      forall k | HasKey(c, k) ensures TileLe(k, last) {
        var i :| 0 <= i < |init| && init[i] == k;
        assert tiles[i] == k;
      }
      AddKeepsAscending(c, last);
    }
  }

  /** Lookup in a tally is the number of copies of that tile. */
  lemma TallyLookup(tiles: seq<Tile>, k: Tile)
    ensures Lookup(Tally(tiles), k) == multiset(tiles)[k]
  {
    LookupIsMultiplicity(Tally(tiles), k);
  }

  /** `counts[k] -= d`, then `delete counts[k]` when it reached 0. */
  function Take(c: Counts, k: Tile, d: nat): (r: Counts)
    requires Lookup(c, k) >= d > 0
    ensures forall x :: HasKey(r, x) ==> HasKey(c, x)
    ensures SumCounts(r) == SumCounts(c) - d
  {
    if c[0].key == k then
      if c[0].n == d then
        c[1..]
      else
        var r := [Entry(k, c[0].n - d)] + c[1..];
        assert r[1..] == c[1..];
        r
    else
      var rest := Take(c[1..], k, d);
      var r := [c[0]] + rest;
      assert r[1..] == rest;
      r
  }

  /** Taking copies keeps the object well formed. */
  lemma {:induction false} TakeWellFormed(c: Counts, k: Tile, d: nat)
    requires WellFormed(c) && Lookup(c, k) >= d > 0
    ensures WellFormed(Take(c, k, d))
    decreases |c|
  {
    var r := Take(c, k, d);
    if c[0].key == k {
      if c[0].n != d {
        assert r[1..] == c[1..];
      }
    } else {
      TakeWellFormed(c[1..], k, d);
      assert r[1..] == Take(c[1..], k, d);
    }
  }

  /** Taking `d` copies of `k` lowers the count of `k` by `d` and leaves every
      other count alone. */
  lemma {:induction false} TakeLookup(c: Counts, k: Tile, d: nat, x: Tile)
    requires Distinct(c) && Lookup(c, k) >= d > 0
    ensures Lookup(Take(c, k, d), x) == Lookup(c, x) - (if x == k then d else 0)
    decreases |c|
  {
    var r := Take(c, k, d);
    HeadNotInTail(c);
    if c[0].key == k {
      if c[0].n != d {
        assert r[1..] == c[1..];
      }
    } else {
      TakeLookup(c[1..], k, d, x);
      assert r[1..] == Take(c[1..], k, d);
    }
  }

  /** The tiles left are the tiles before less `d` copies of `k`. */
  lemma {:induction false} TakeMultiset(c: Counts, k: Tile, d: nat)
    requires Distinct(c) && Lookup(c, k) >= d > 0
    ensures Multiset(Take(c, k, d)) == Multiset(c) - multiset{}[k := d]
    decreases |c|
  {
    var r := Take(c, k, d);
    var head := multiset{}[c[0].key := c[0].n];
    assert Multiset(c) == head + Multiset(c[1..]);
    if c[0].key == k {
      HeadNotInTail(c);
      if c[0].n != d {
        assert r[1..] == c[1..];
        assert head == multiset{}[k := c[0].n - d] + multiset{}[k := d];
      }
    } else {
      TakeMultiset(c[1..], k, d);
      assert r[1..] == Take(c[1..], k, d);
      assert head[k] == 0;
    }
  }

  /** Taking copies keeps the keys in ascending order. */
  lemma {:induction false} TakeAscending(c: Counts, k: Tile, d: nat)
    requires Ascending(c) && Lookup(c, k) >= d > 0
    ensures Ascending(Take(c, k, d))
    decreases |c|
  {
    var r := Take(c, k, d);
    if c[0].key == k {
      if c[0].n != d {
        assert r[1..] == c[1..];
      }
    } else {
      TakeAscending(c[1..], k, d);
      assert r[1..] == Take(c[1..], k, d);
    }
  }

  /** Number of keys whose count is exactly `m`. */
  function CountEqual(c: Counts, m: nat): (r: nat)
    ensures r <= |c|
    ensures r == |c| <==> forall i | 0 <= i < |c| :: c[i].n == m
  {
    if c == [] then 0
    else
      assert forall i | 1 <= i < |c| :: c[1..][i - 1] == c[i];
      (if c[0].n == m then 1 else 0) + CountEqual(c[1..], m)
  }

  /** Number of keys whose count is at least `m`. */
  function CountAtLeast(c: Counts, m: nat): (r: nat)
    ensures r <= |c|
    ensures r == 0 <==> forall i | 0 <= i < |c| :: c[i].n < m
  {
    if c == [] then 0
    else
      assert forall i | 1 <= i < |c| :: c[1..][i - 1] == c[i];
      (if c[0].n >= m then 1 else 0) + CountAtLeast(c[1..], m)
  }

  /** The keys whose count is exactly 2, in enumeration order. */
  function PairKeys(c: Counts): (r: seq<Tile>)
    ensures |r| == CountEqual(c, 2)
    ensures forall x | x in r :: exists i | 0 <= i < |c| :: c[i].key == x && c[i].n == 2
  {
    if c == [] then []
    else
      var rest := PairKeys(c[1..]);
      assert forall i | 0 <= i < |c[1..]| :: c[1..][i] == c[i + 1];
      if c[0].n == 2 then [c[0].key] + rest else rest
  }

  /** A count object whose every count is 2 stands for twice as many tiles as it has keys. */
  lemma {:induction false} AllPairsSum(c: Counts)
    requires forall i | 0 <= i < |c| :: c[i].n == 2
    ensures SumCounts(c) == 2 * |c|
    decreases |c|
  {
    if c != [] {
      assert forall i | 0 <= i < |c[1..]| :: c[1..][i] == c[i + 1];
      AllPairsSum(c[1..]);
    }
  }

  /** No key is counted exactly `m` times. */
  lemma {:induction false} CountEqualZero(c: Counts, m: nat)
    ensures CountEqual(c, m) == 0 <==> forall i | 0 <= i < |c| :: c[i].n != m
    decreases |c|
  {
    if c != [] {
      assert forall i | 1 <= i < |c| :: c[1..][i - 1] == c[i];
      CountEqualZero(c[1..], m);
    }
  }

  /** Given one key counted `m` times, it is the only one exactly when
      `CountEqual` is 1. */
  lemma {:induction false} CountEqualOne(c: Counts, m: nat, i: nat)
    requires i < |c| && c[i].n == m
    ensures CountEqual(c, m) == 1 <==> forall j | 0 <= j < |c| && c[j].n == m :: j == i
    decreases |c|
  {
    assert forall j | 1 <= j < |c| :: c[1..][j - 1] == c[j];
    CountEqualZero(c[1..], m);
    if i > 0 {
      CountEqualOne(c[1..], m, i - 1);
    }
  }

  /** Every key stands for at least one tile and a key counted twice for two. */
  lemma {:induction false} PairsWeigh(c: Counts)
    requires Positive(c)
    ensures SumCounts(c) >= |c| + CountEqual(c, 2)
    decreases |c|
  {
    if c != [] {
      assert forall i | 0 <= i < |c[1..]| :: c[1..][i] == c[i + 1];
      PairsWeigh(c[1..]);
    }
  }

  /** Every key counted three times or more stands for at least three tiles. */
  lemma {:induction false} TripletsWeigh(c: Counts)
    ensures SumCounts(c) >= 3 * CountAtLeast(c, 3)
    decreases |c|
  {
    if c != [] {
      TripletsWeigh(c[1..]);
    }
  }

  /** The loop the source runs with forEach to build a count object. */
  method CountTiles(tiles: seq<Tile>) returns (counts: Counts)
    ensures counts == Tally(tiles)
  {
    counts := [];
    for i := 0 to |tiles|
      invariant counts == Tally(tiles[..i])
    {
      ghost var prefix := tiles[..i + 1];
      assert prefix[..|prefix| - 1] == tiles[..i] && prefix[|prefix| - 1] == tiles[i];
      counts := Add(counts, tiles[i]);
    }
    assert tiles[..|tiles|] == tiles;
  }
}
