/** Tiles as the hand calculator's picker creates them, and the tile sort. */
module Tiles {

  datatype Option<+T> = None | Some(value: T)

  /** The picker's suit letters: m (characters), p (circles), s (bamboo),
      w (winds, values 0-3) and d (dragons, values 0-2). */
  datatype Suit = Man | Pin | Sou | Wind | Dragon

  /** A tile is identified by its suit and value, as in the key `suit-value`;
      the glyph the source also stores is a function of the two. */
  datatype Tile = Tile(suit: Suit, value: nat)

  predicate IsHonorSuit(s: Suit) { s == Wind || s == Dragon }

  predicate IsNumberSuit(s: Suit) { s == Man || s == Pin || s == Sou }

  predicate IsHonor(t: Tile) { IsHonorSuit(t.suit) }

  /** The tile `d` values above `t` in the same suit. */
  function Above(t: Tile, d: nat): Tile { Tile(t.suit, t.value + d) }

  /** The suit order sortTiles uses. */
  function SuitOrder(s: Suit): nat
  {
    match s
    case Man => 0
    case Pin => 1
    case Sou => 2
    case Wind => 3
    case Dragon => 4
  }

  /** `a` may come before `b` in sorted order: by suit order, then by value. */
  predicate TileLe(a: Tile, b: Tile)
  {
    SuitOrder(a.suit) < SuitOrder(b.suit) || (a.suit == b.suit && a.value <= b.value)
  }

  predicate TileLt(a: Tile, b: Tile) { TileLe(a, b) && a != b }

  predicate Sorted(ts: seq<Tile>)
  {
    forall i, j :: 0 <= i < j < |ts| ==> TileLe(ts[i], ts[j])
  }

  lemma TileLeTotal(a: Tile, b: Tile)
    ensures TileLe(a, b) || TileLe(b, a)
  {
  }

  /** Inserts `t` into a sorted sequence before the first tile it does not follow. */
  function Insert(t: Tile, s: seq<Tile>): (r: seq<Tile>)
    requires Sorted(s)
    ensures Sorted(r)
    ensures multiset(r) == multiset(s) + multiset{t}
  {
    if s == [] || TileLe(t, s[0]) then
      [t] + s
    else
      var rest := Insert(t, s[1..]);
      InsertAfterHead(t, s, rest);
      [s[0]] + rest
  }

  lemma InsertAfterHead(t: Tile, s: seq<Tile>, rest: seq<Tile>)
    requires Sorted(s) && s != [] && !TileLe(t, s[0])
    requires Sorted(rest) && multiset(rest) == multiset(s[1..]) + multiset{t}
    ensures Sorted([s[0]] + rest)
    ensures multiset([s[0]] + rest) == multiset(s) + multiset{t}
  {
    TileLeTotal(t, s[0]);
    assert s == [s[0]] + s[1..];
    forall j | 0 <= j < |rest| ensures TileLe(s[0], rest[j]) {
      assert rest[j] in multiset(rest);
      if rest[j] != t {
        assert rest[j] in multiset(s[1..]);
        var k :| 0 <= k < |s[1..]| && s[1..][k] == rest[j];
        assert s[k + 1] == rest[j];
      }
    }
    var r := [s[0]] + rest;
    forall i, j | 0 <= i < j < |r| ensures TileLe(r[i], r[j]) {
      if i > 0 {
        assert r[i] == rest[i - 1] && r[j] == rest[j - 1];
      }
    }
  }

  /** sortTiles: a copy of the tiles ordered by suit (m, p, s, w, d) and then
      by value. Tiles with the same key are indistinguishable, so the order
      among them does not matter. */
  function SortTiles(tiles: seq<Tile>): (r: seq<Tile>)
    ensures Sorted(r)
    ensures multiset(r) == multiset(tiles)
  {
    if tiles == [] then []
    else
      assert tiles == [tiles[0]] + tiles[1..];
      Insert(tiles[0], SortTiles(tiles[1..]))
  }
}
