/** The table's running state: seats, points, the riichi pool, the dealer,
    the honba counter and the round, and the handlers that change them. */
module GameState {
  import opened Tiles
  import opened Yaku
  import opened Scoring

  datatype Wind = East | South | West | North

  /** A seat: the wind it was dealt, its points and its riichi flag (the
      display name is not modelled). */
  datatype Player = Player(wind: Wind, points: int, riichi: bool)

  /** The seat winds a game of `mode` players deals, in seat order. */
  function Winds(mode: nat): seq<Wind>
  {
    if mode == 3 then [East, South, West] else [East, South, West, North]
  }

  /** The sum of every player's points. */
  function Total(ps: seq<Player>): int
  {
    if ps == [] then 0 else ps[0].points + Total(ps[1..])
  }

  function Sum(ds: seq<int>): int
  {
    if ds == [] then 0 else ds[0] + Sum(ds[1..])
  }

  // ---------------------------------------------------------------------
  // Sums

  lemma {:induction false} TotalUpdate(ps: seq<Player>, i: nat, p: Player)
    requires i < |ps|
    ensures Total(ps[i := p]) == Total(ps) - ps[i].points + p.points
    decreases |ps|
  {
    if i > 0 {
      assert ps[i := p][1..] == ps[1..][i - 1 := p];
      TotalUpdate(ps[1..], i - 1, p);
    }
  }

  lemma {:induction false} SumUpdate(ds: seq<int>, i: nat, v: int)
    requires i < |ds|
    ensures Sum(ds[i := v]) == Sum(ds) - ds[i] + v
    decreases |ds|
  {
    if i > 0 {
      assert ds[i := v][1..] == ds[1..][i - 1 := v];
      SumUpdate(ds[1..], i - 1, v);
    }
  }

  lemma {:induction false} SumConstant(n: nat, c: int)
    ensures Sum(seq(n, _ => c)) == n * c
    decreases n
  {
    if n > 0 {
      assert seq(n, _ => c)[1..] == seq(n - 1, _ => c);
      SumConstant(n - 1, c);
    }
  }

  /** Adding `ds[i]` to player `i` adds the sum of `ds` to the total. */
  lemma {:induction false} TotalShift(ps: seq<Player>, ds: seq<int>, qs: seq<Player>)
    requires |ps| == |ds| == |qs|
    requires forall i | 0 <= i < |ps| :: qs[i].points == ps[i].points + ds[i]
    ensures Total(qs) == Total(ps) + Sum(ds)
    decreases |ps|
  {
    if ps != [] {
      TotalShift(ps[1..], ds[1..], qs[1..]);
    }
  }

  // ---------------------------------------------------------------------
  // Payments

  function AddPoints(ps: seq<Player>, i: nat, d: int): seq<Player>
    requires i < |ps|
  {
    ps[i := ps[i].(points := ps[i].points + d)]
  }

  /** A ron: the winner gains the payment, then the loser loses it. */
  function RonPayment(ps: seq<Player>, winnerIdx: nat, loserIdx: nat, payment: int): seq<Player>
    requires winnerIdx < |ps| && loserIdx < |ps|
  {
    AddPoints(AddPoints(ps, winnerIdx, payment), loserIdx, -payment)
  }

  /** A ron moves exactly the payment from the loser to the winner: nobody
      else changes and the total is kept. */
  lemma RonMovesPayment(ps: seq<Player>, winnerIdx: nat, loserIdx: nat, payment: int)
    requires winnerIdx < |ps| && loserIdx < |ps| && winnerIdx != loserIdx
    ensures |RonPayment(ps, winnerIdx, loserIdx, payment)| == |ps|
    ensures RonPayment(ps, winnerIdx, loserIdx, payment)[winnerIdx].points == ps[winnerIdx].points + payment
    ensures RonPayment(ps, winnerIdx, loserIdx, payment)[loserIdx].points == ps[loserIdx].points - payment
    ensures forall i | 0 <= i < |ps| && i != winnerIdx && i != loserIdx :: RonPayment(ps, winnerIdx, loserIdx, payment)[i] == ps[i]
    ensures Total(RonPayment(ps, winnerIdx, loserIdx, payment)) == Total(ps)
  {
    var ps1 := AddPoints(ps, winnerIdx, payment);
    TotalUpdate(ps, winnerIdx, ps1[winnerIdx]);
    TotalUpdate(ps1, loserIdx, ps1[loserIdx].(points := ps1[loserIdx].points - payment));
  }

  /** The tsumo payment shapes the object form allows: `{all}` exactly when
      the winner is paid as dealer, and a non-zero non-dealer share (a zero
      one falls through `nondealer || all` to a missing field). */
  predicate TsumoPayable(p: Points, isDealer: bool)
  {
    !p.Flat? && (isDealer <==> p.All?) && (p.Split? ==> p.nondealer != 0)
  }

  /** `points.nondealer || points.all`. */
  function NondealerOrAll(p: Points): nat
    requires !p.Flat? && (p.Split? ==> p.nondealer != 0)
  {
    match p
    case Split(_, n) => n
    case All(a) => a
  }

  /** What the winner of a tsumo receives. */
  function Received(p: Points, isDealer: bool, mode: nat): int
    requires TsumoPayable(p, isDealer)
  {
    if isDealer then p.all * (mode - 1) else p.dealer + p.nondealer * (mode - 2)
  }

  /** The change to seat `idx`'s points in a tsumo: the winner receives, the
      dealer pays the dealer share when the winner is not paid as dealer, and
      everyone else pays `nondealer || all`. */
  function TsumoShare(idx: nat, winnerIdx: nat, dealer: nat, mode: nat, p: Points, isDealer: bool): int
    requires TsumoPayable(p, isDealer)
  {
    if idx == winnerIdx then Received(p, isDealer, mode)
    else if idx == dealer && !isDealer then -(p.dealer as int)
    else -(NondealerOrAll(p) as int)
  }

  function TsumoPayment(ps: seq<Player>, winnerIdx: nat, dealer: nat, mode: nat, p: Points, isDealer: bool): seq<Player>
    requires TsumoPayable(p, isDealer)
  {
    seq(|ps|, i requires 0 <= i < |ps| => ps[i].(points := ps[i].points + TsumoShare(i, winnerIdx, dealer, mode, p, isDealer)))
  }

  function TsumoShares(n: nat, winnerIdx: nat, dealer: nat, mode: nat, p: Points, isDealer: bool): seq<int>
    requires TsumoPayable(p, isDealer)
  {
    seq(n, i requires 0 <= i < n => TsumoShare(i, winnerIdx, dealer, mode, p, isDealer))
  }

  /** Every seat pays `o` except the winner, who receives `recv`. */
  lemma SharesWithWinner(n: nat, winnerIdx: nat, o: int, recv: int) returns (ds: seq<int>)
    requires winnerIdx < n
    ensures ds == seq(n, _ => -o)[winnerIdx := recv]
    ensures Sum(ds) == recv - (n - 1) * o
  {
    var base := seq(n, _ => -o);
    SumConstant(n, -o);
    SumUpdate(base, winnerIdx, recv);
    ds := base[winnerIdx := recv];
  }

  /** The shares of a tsumo cancel out when every seat is filled and the
      winner paid as non-dealer is not the dealer. */
  lemma TsumoSharesCancel(n: nat, winnerIdx: nat, dealer: nat, p: Points, isDealer: bool)
    requires TsumoPayable(p, isDealer) && winnerIdx < n && dealer < n
    requires !isDealer ==> winnerIdx != dealer
    ensures Sum(TsumoShares(n, winnerIdx, dealer, n, p, isDealer)) == 0
  {
    var shares := TsumoShares(n, winnerIdx, dealer, n, p, isDealer);
    var o: int := NondealerOrAll(p);
    var ds := SharesWithWinner(n, winnerIdx, o, Received(p, isDealer, n));
    if isDealer {
      assert shares == ds;
    } else {
      SumUpdate(ds, dealer, -(p.dealer as int));
      assert shares == ds[dealer := -(p.dealer as int)];
    }
  }

  /** With `mode` players, a tsumo paid in the object form keeps the total
      when the winner paid as non-dealer is not the dealer. */
  lemma TsumoZeroSum(ps: seq<Player>, winnerIdx: nat, dealer: nat, p: Points, isDealer: bool)
    requires TsumoPayable(p, isDealer) && winnerIdx < |ps| && dealer < |ps|
    requires !isDealer ==> winnerIdx != dealer
    ensures Total(TsumoPayment(ps, winnerIdx, dealer, |ps|, p, isDealer)) == Total(ps)
  {
    var n := |ps|;
    TotalShift(ps, TsumoShares(n, winnerIdx, dealer, n, p, isDealer), TsumoPayment(ps, winnerIdx, dealer, n, p, isDealer));
    TsumoSharesCancel(n, winnerIdx, dealer, p, isDealer);
  }

  /** The winner collects the riichi pool when in riichi: the pool empties and
      the flag is cleared. */
  datatype Pool = Pool(players: seq<Player>, riichiSticks: nat)

  function CollectRiichi(ps: seq<Player>, riichiSticks: nat, winnerIdx: nat): Pool
    requires winnerIdx < |ps|
  {
    if ps[winnerIdx].riichi then
      Pool(ps[winnerIdx := ps[winnerIdx].(points := ps[winnerIdx].points + riichiSticks * 1000, riichi := false)], 0)
    else
      Pool(ps, riichiSticks)
  }

  /** The pool's points move to the winner and nowhere else; a winner not in
      riichi leaves everything as it was. */
  lemma RiichiConserved(ps: seq<Player>, riichiSticks: nat, winnerIdx: nat)
    requires winnerIdx < |ps|
    ensures Total(CollectRiichi(ps, riichiSticks, winnerIdx).players) + 1000 * CollectRiichi(ps, riichiSticks, winnerIdx).riichiSticks
      == Total(ps) + 1000 * riichiSticks
    ensures !CollectRiichi(ps, riichiSticks, winnerIdx).players[winnerIdx].riichi
    ensures !ps[winnerIdx].riichi ==> CollectRiichi(ps, riichiSticks, winnerIdx) == Pool(ps, riichiSticks)
  {
    if ps[winnerIdx].riichi {
      TotalUpdate(ps, winnerIdx, ps[winnerIdx].(points := ps[winnerIdx].points + riichiSticks * 1000, riichi := false));
    }
  }

  /** The points after a win is paid: a ron moves the number, a tsumo in the
      object form pays every seat's share, a number-valued tsumo pays nothing. */
  function Paid(ps: seq<Player>, winnerIdx: nat, loserIdx: Option<nat>, winType: WinType, p: Points,
                isDealer: bool, dealer: nat, mode: nat): seq<Player>
    requires winnerIdx < |ps|
    requires winType == Ron ==> loserIdx.Some? && loserIdx.value < |ps| && p.Flat?
    requires winType == Tsumo && !p.Flat? ==> TsumoPayable(p, isDealer)
  {
    match winType
    case Ron => RonPayment(ps, winnerIdx, loserIdx.value, p.amount)
    case Tsumo => if p.Flat? then ps else TsumoPayment(ps, winnerIdx, dealer, mode, p, isDealer)
  }

  /** A tsumo entered as a number, as the manual score form passes it, moves
      no points: only the riichi pool and the round change after it. */
  lemma NumberTsumoPaysNothing(ps: seq<Player>, winnerIdx: nat, amount: nat, isDealer: bool,
                               dealer: nat, mode: nat)
    requires winnerIdx < |ps|
    ensures Paid(ps, winnerIdx, None, Tsumo, Flat(amount), isDealer, dealer, mode) == ps
  {
  }

  /** Paying a win with every seat filled keeps the points in play plus the
      riichi pool. */
  lemma PaidZeroSum(ps: seq<Player>, winnerIdx: nat, loserIdx: Option<nat>, winType: WinType, p: Points,
                    isDealer: bool, dealer: nat)
    requires winnerIdx < |ps| && dealer < |ps|
    requires winType == Ron ==> loserIdx.Some? && loserIdx.value < |ps| && p.Flat?
    requires winType == Tsumo && !p.Flat? ==> TsumoPayable(p, isDealer)
    requires winType == Tsumo && !isDealer ==> winnerIdx != dealer
    ensures Total(Paid(ps, winnerIdx, loserIdx, winType, p, isDealer, dealer, |ps|)) == Total(ps)
    ensures |Paid(ps, winnerIdx, loserIdx, winType, p, isDealer, dealer, |ps|)| == |ps|
  {
    if winType == Ron {
      var l := loserIdx.value;
      var ps1 := AddPoints(ps, winnerIdx, p.amount);
      TotalUpdate(ps, winnerIdx, ps1[winnerIdx]);
      TotalUpdate(ps1, l, ps1[l].(points := ps1[l].points - p.amount));
    } else if !p.Flat? {
      TsumoZeroSum(ps, winnerIdx, dealer, p, isDealer);
    }
  }

  // ---------------------------------------------------------------------
  // advanceRound

  /** The round fields of the state: wind, round number, dealer and honba. */
  datatype RoundInfo = RoundInfo(wind: Wind, number: nat, dealer: nat, honba: nat)

  /** The next round, and whether the game ended instead of moving on. */
  datatype Advance = Advance(next: RoundInfo, finished: bool)

  function WindIndex(w: Wind): nat
  {
    match w
    case East => 0
    case South => 1
    case West => 2
    case North => 3
  }

  /** The last wind played: East and South (a hanchan). */
  const MaxWindIdx: nat := 1

  /** advanceRound: a dealer win adds a honba; any other win passes the deal
      on, clears honba and moves the round on, to South after East's last
      dealer, or ends the game after South's. */
  function AdvanceRound(r: RoundInfo, mode: nat, winnerIdx: nat): (a: Advance)
    requires mode > 0
    ensures r.dealer < mode ==> a.next.dealer < mode
  {
    if winnerIdx == r.dealer then
      Advance(r.(honba := r.honba + 1), false)
    else
      var passed := r.(dealer := (r.dealer + 1) % mode, honba := 0);
      if passed.dealer == 0 then
        if WindIndex(r.wind) < MaxWindIdx then
          Advance(passed.(wind := [East, South, West, North][WindIndex(r.wind) + 1], number := 1), false)
        else
          Advance(passed, true)
      else
        Advance(passed.(number := r.number + 1), false)
  }

  /** A hand in progress: dealer seat `k` plays round `k + 1` of East or South. */
  predicate InPlay(r: RoundInfo, mode: nat)
  {
    r.dealer < mode && r.number == r.dealer + 1 && (r.wind == East || r.wind == South)
  }

  /** How many times the deal has passed since East 1. */
  function Progress(r: RoundInfo, mode: nat): nat
  {
    WindIndex(r.wind) * mode + r.dealer
  }

  /** A dealer win repeats the hand with one more honba and changes nothing else. */
  lemma DealerRepeats(r: RoundInfo, mode: nat)
    requires mode > 0
    ensures AdvanceRound(r, mode, r.dealer) == Advance(r.(honba := r.honba + 1), false)
  {
  }

  lemma NextSeat(d: nat, mode: nat)
    requires d < mode
    ensures (d + 1) % mode == if d + 1 < mode then d + 1 else 0
  {
  }

  /** Any other win passes the deal to the next seat and clears honba; the
      game ends exactly when South's last dealer loses the deal, and
      otherwise the deal has passed once more and the next hand is in play. */
  lemma DealPasses(r: RoundInfo, mode: nat, winnerIdx: nat)
    requires mode > 0 && InPlay(r, mode) && winnerIdx != r.dealer
    ensures AdvanceRound(r, mode, winnerIdx).next.dealer == (r.dealer + 1) % mode
    ensures AdvanceRound(r, mode, winnerIdx).next.honba == 0
    ensures AdvanceRound(r, mode, winnerIdx).finished <==> r.wind == South && r.dealer == mode - 1
    ensures !AdvanceRound(r, mode, winnerIdx).finished ==>
      InPlay(AdvanceRound(r, mode, winnerIdx).next, mode)
      && Progress(AdvanceRound(r, mode, winnerIdx).next, mode) == Progress(r, mode) + 1
  {
    NextSeat(r.dealer, mode);
    var a := AdvanceRound(r, mode, winnerIdx);
    if r.dealer + 1 < mode {
      assert a == Advance(r.(dealer := r.dealer + 1, honba := 0, number := r.number + 1), false);
    } else if r.wind == East {
      assert a == Advance(r.(dealer := 0, honba := 0, wind := South, number := 1), false);
      assert Progress(a.next, mode) == mode;
    } else {
      assert a == Advance(r.(dealer := 0, honba := 0), true);
    }
  }

  /** The game ends after the deal has passed `2 * mode` times: East and
      South each give every seat one turn as dealer. */
  lemma GameLength(r: RoundInfo, mode: nat, winnerIdx: nat)
    requires mode > 0 && InPlay(r, mode) && winnerIdx != r.dealer
    requires AdvanceRound(r, mode, winnerIdx).finished
    ensures Progress(r, mode) + 1 == 2 * mode
  {
    DealPasses(r, mode, winnerIdx);
  }

  /** Unless the game ends, the next hand is in play again. */
  lemma KeepsInPlay(r: RoundInfo, mode: nat, winnerIdx: nat)
    requires mode > 0
    ensures InPlay(r, mode) && !AdvanceRound(r, mode, winnerIdx).finished ==>
      InPlay(AdvanceRound(r, mode, winnerIdx).next, mode)
  {
    if InPlay(r, mode) && winnerIdx != r.dealer {
      DealPasses(r, mode, winnerIdx);
    }
  }

  // ---------------------------------------------------------------------
  // Chombo

  const ChomboPenalty: int := 8000

  /** A chombo takes the penalty, or whatever is left when that is less. */
  function AfterChombo(points: int): (r: int)
    ensures r >= 0
    ensures points >= ChomboPenalty ==> points - r == ChomboPenalty
    ensures points < ChomboPenalty ==> r == 0
  {
    if points >= ChomboPenalty then points - ChomboPenalty else 0
  }

  // ---------------------------------------------------------------------
  // The state object

  class Game {
    var mode: nat
    var startingPoints: int
    var players: seq<Player>
    var currentRound: nat
    var currentWind: Wind
    var honba: nat
    var riichiSticks: nat
    var dealer: nat
    var gameStarted: bool

    /** Three- or four-player mode, as the mode buttons set it. */
    predicate Valid()
      reads this
    {
      mode == 3 || mode == 4
    }

    function Round(): RoundInfo
      reads this
    {
      RoundInfo(currentWind, currentRound, dealer, honba)
    }

    /** The state before any game: four players, 25000 points, East 1. */
    constructor()
      ensures Valid()
      ensures mode == 4 && startingPoints == 25000 && players == []
      ensures currentRound == 1 && currentWind == East && honba == 0 && riichiSticks == 0 && dealer == 0
      ensures !gameStarted
    {
      mode := 4;
      startingPoints := 25000;
      players := [];
      currentRound := 1;
      currentWind := East;
      honba := 0;
      riichiSticks := 0;
      dealer := 0;
      gameStarted := false;
    }

    /** setMode: choose three or four players. */
    method SetMode(m: nat)
      requires m == 3 || m == 4
      modifies this
      ensures Valid() && mode == m
      ensures startingPoints == old(startingPoints) && players == old(players) && Round() == old(Round())
      ensures riichiSticks == old(riichiSticks) && gameStarted == old(gameStarted)
    {
      mode := m;
    }

    /** startNewGame: East 1, dealer seat 0, no honba or sticks, and one seat
        per player with the starting points, its seat wind and no riichi. */
    method StartNewGame(points: int)
      requires Valid()
      modifies this
      ensures Valid() && mode == old(mode)
      ensures startingPoints == points && gameStarted
      ensures Round() == RoundInfo(East, 1, 0, 0) && riichiSticks == 0
      ensures |players| == mode
      ensures forall i | 0 <= i < |players| :: players[i] == Player(Winds(mode)[i], points, false)
      ensures InPlay(Round(), mode) && Total(players) == mode * points
    {
      startingPoints := points;
      currentRound := 1;
      currentWind := East;
      honba := 0;
      riichiSticks := 0;
      dealer := 0;
      gameStarted := true;
      players := SeatPlayers(mode, points);
    }

    /** A draw: one more honba and nothing else. */
    method Draw()
      modifies this
      ensures honba == old(honba) + 1
      ensures mode == old(mode) && startingPoints == old(startingPoints) && players == old(players)
      ensures currentRound == old(currentRound) && currentWind == old(currentWind) && dealer == old(dealer)
      ensures riichiSticks == old(riichiSticks) && gameStarted == old(gameStarted)
    {
      honba := honba + 1;
    }

    /** A chombo: the chosen player pays the penalty into nothing, never
        going below zero; nobody else changes. */
    method Chombo(playerIdx: nat)
      requires playerIdx < |players|
      modifies this
      ensures players == old(players)[playerIdx := old(players)[playerIdx].(points := AfterChombo(old(players)[playerIdx].points))]
      ensures players[playerIdx].points >= 0
      ensures mode == old(mode) && Round() == old(Round()) && riichiSticks == old(riichiSticks)
      ensures startingPoints == old(startingPoints) && gameStarted == old(gameStarted)
    {
      var p := players[playerIdx];
      if p.points >= ChomboPenalty {
        players := players[playerIdx := p.(points := p.points - ChomboPenalty)];
      } else {
        players := players[playerIdx := p.(points := 0)];
      }
    }

    /** advanceRound on the state; `finished` is the call to the end-of-game
        display, which leaves the state as it is. */
    method AdvanceRoundState(winnerIdx: nat) returns (finished: bool)
      requires Valid()
      modifies this
      ensures Round() == AdvanceRound(old(Round()), old(mode), winnerIdx).next
      ensures finished == AdvanceRound(old(Round()), old(mode), winnerIdx).finished
      ensures mode == old(mode) && players == old(players) && riichiSticks == old(riichiSticks)
      ensures startingPoints == old(startingPoints) && gameStarted == old(gameStarted)
      ensures old(InPlay(Round(), mode)) && !finished ==> InPlay(Round(), mode)
    {
      KeepsInPlay(Round(), mode, winnerIdx);
      finished := false;
      if winnerIdx == dealer {
        honba := honba + 1;
      } else {
        dealer := (dealer + 1) % mode;
        honba := 0;
        if dealer == 0 {
          var winds := [East, South, West, North];
          var currentWindIdx := WindIndex(currentWind);
          if currentWindIdx < MaxWindIdx {
            currentWind := winds[currentWindIdx + 1];
            currentRound := 1;
          } else {
            finished := true;
            return;
          }
        } else {
          currentRound := currentRound + 1;
        }
      }
    }

    /** applyScore: pay the win, hand the riichi pool to a winner in riichi,
        then advance the round. */
    method ApplyScore(winnerIdx: nat, loserIdx: Option<nat>, winType: WinType, p: Points, isDealer: bool)
      returns (finished: bool)
      requires Valid() && winnerIdx < |players|
      requires winType == Ron ==> loserIdx.Some? && loserIdx.value < |players| && p.Flat?
      requires winType == Tsumo && !p.Flat? ==> TsumoPayable(p, isDealer)
      modifies this
      ensures var pool := CollectRiichi(Paid(old(players), winnerIdx, loserIdx, winType, p, isDealer, old(dealer), old(mode)),
                                        old(riichiSticks), winnerIdx);
              players == pool.players && riichiSticks == pool.riichiSticks
      ensures Round() == AdvanceRound(old(Round()), old(mode), winnerIdx).next
      ensures finished == AdvanceRound(old(Round()), old(mode), winnerIdx).finished
      ensures mode == old(mode) && startingPoints == old(startingPoints) && gameStarted == old(gameStarted)
      ensures old(InPlay(Round(), mode)) && !finished ==> InPlay(Round(), mode)
    {
      if winType == Ron {
        var payment := p.amount;
        var l := loserIdx.value;
        players := players[winnerIdx := players[winnerIdx].(points := players[winnerIdx].points + payment)];
        players := players[l := players[l].(points := players[l].points - payment)];
      } else if !p.Flat? {
        players := PayTsumo(players, winnerIdx, dealer, mode, p, isDealer);
      }
      if players[winnerIdx].riichi {
        var w := players[winnerIdx];
        players := players[winnerIdx := w.(points := w.points + riichiSticks * 1000, riichi := false)];
        riichiSticks := 0;
      }
      finished := AdvanceRoundState(winnerIdx);
    }
  }

  /** The tsumo `forEach` of applyScore: every seat in turn gets its share. */
  method PayTsumo(players: seq<Player>, winnerIdx: nat, dealer: nat, mode: nat, p: Points, isDealer: bool)
    returns (paid: seq<Player>)
    requires TsumoPayable(p, isDealer)
    ensures paid == TsumoPayment(players, winnerIdx, dealer, mode, p, isDealer)
  {
    paid := players;
    for idx := 0 to |players|
      invariant |paid| == |players|
      invariant forall j | 0 <= j < idx :: paid[j] == TsumoPayment(players, winnerIdx, dealer, mode, p, isDealer)[j]
      invariant forall j | idx <= j < |players| :: paid[j] == players[j]
    {
      var player := paid[idx];
      if idx == winnerIdx {
        var received := if isDealer then p.all * (mode - 1) else p.dealer + p.nondealer * (mode - 2);
        paid := paid[idx := player.(points := player.points + received)];
      } else {
        var payment := if idx == dealer && !isDealer then p.dealer else NondealerOrAll(p);
        paid := paid[idx := player.(points := player.points - payment)];
      }
    }
  }

  /** The seating loop of startNewGame: seat `i` gets the `i`-th seat wind,
      the starting points and no riichi. */
  method SeatPlayers(mode: nat, points: int) returns (seats: seq<Player>)
    requires mode == 3 || mode == 4
    ensures |seats| == mode
    ensures forall i | 0 <= i < mode :: seats[i] == Player(Winds(mode)[i], points, false)
    ensures Total(seats) == mode * points
  {
    seats := [];
    var winds := Winds(mode);
    for i := 0 to mode
      invariant |seats| == i
      invariant forall j | 0 <= j < i :: seats[j] == Player(winds[j], points, false)
      invariant Total(seats) == i * points
    {
      TotalAppend(seats, Player(winds[i], points, false));
      seats := seats + [Player(winds[i], points, false)];
    }
  }

  lemma {:induction false} TotalAppend(ps: seq<Player>, p: Player)
    ensures Total(ps + [p]) == Total(ps) + p.points
    decreases |ps|
  {
    if ps == [] {
      assert [] + [p] == [p];
    } else {
      assert (ps + [p])[1..] == ps[1..] + [p];
      TotalAppend(ps[1..], p);
    }
  }

  /** applyScore with every seat filled and the dealer flag matching the
      dealer seat keeps the points in play plus the riichi pool. */
  lemma ApplyScoreConserves(ps: seq<Player>, riichiSticks: nat, winnerIdx: nat, loserIdx: Option<nat>,
                            winType: WinType, p: Points, isDealer: bool, dealer: nat)
    requires winnerIdx < |ps| && dealer < |ps|
    requires winType == Ron ==> loserIdx.Some? && loserIdx.value < |ps| && p.Flat?
    requires winType == Tsumo && !p.Flat? ==> TsumoPayable(p, isDealer)
    requires winType == Tsumo && !isDealer ==> winnerIdx != dealer
    ensures var pool := CollectRiichi(Paid(ps, winnerIdx, loserIdx, winType, p, isDealer, dealer, |ps|), riichiSticks, winnerIdx);
            Total(pool.players) + 1000 * pool.riichiSticks == Total(ps) + 1000 * riichiSticks
  {
    PaidZeroSum(ps, winnerIdx, loserIdx, winType, p, isDealer, dealer);
    RiichiConserved(Paid(ps, winnerIdx, loserIdx, winType, p, isDealer, dealer, |ps|), riichiSticks, winnerIdx);
  }
}
