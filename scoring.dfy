/** calculateScoreFromHanFu and getLimitHandName: from han and fu to the
    points a winner collects, with the five limit rows and the mangan cap. */
module Scoring {
  import opened Tiles
  import opened Yaku

  /** What calculateScoreFromHanFu returns: a plain number for a ron, `{all}`
      for a dealer's tsumo, `{dealer, nondealer}` for a non-dealer's tsumo. */
  datatype Points = Flat(amount: nat) | All(all: nat) | Split(dealer: nat, nondealer: nat)

  function Pow2(n: nat): (r: nat)
    ensures r >= 1
  {
    if n == 0 then 1 else 2 * Pow2(n - 1)
  }

  /** `Math.ceil(x / 100) * 100`: the least multiple of 100 that is at least `x`. */
  function RoundUp100(x: nat): (r: nat)
    ensures r % 100 == 0 && x <= r < x + 100
  {
    (x + 99) / 100 * 100
  }

  /** One row of the table: the five amounts a hand pays, picked by who won
      and how. */
  function Row(isDealer: bool, winType: WinType, dealerTsumo: nat, dealerRon: nat,
               fromDealer: nat, fromOthers: nat, ron: nat): Points
  {
    if isDealer then
      (if winType == Tsumo then All(dealerTsumo) else Flat(dealerRon))
    else
      (if winType == Tsumo then Split(fromDealer, fromOthers) else Flat(ron))
  }

  /** calculateScoreFromHanFu as written: the limit rows, then the base
      `fu * 2^(2 + han)`, the mangan cap at 2000, and the rounded payments. */
  function CalculateScoreFromHanFu(han: nat, fu: nat, isDealer: bool, winType: WinType): Points
  {
    if han >= 13 then Row(isDealer, winType, 16000, 48000, 16000, 8000, 32000)
    else if han >= 11 then Row(isDealer, winType, 12000, 36000, 12000, 6000, 24000)
    else if han >= 8 then Row(isDealer, winType, 8000, 24000, 8000, 4000, 16000)
    else if han >= 6 then Row(isDealer, winType, 6000, 18000, 6000, 3000, 12000)
    else if han >= 5 then Row(isDealer, winType, 4000, 12000, 4000, 2000, 8000)
    else
      var basePoints := fu * Pow2(2 + han);
      if basePoints >= 2000 then Row(isDealer, winType, 4000, 12000, 4000, 2000, 8000)
      else if winType == Ron then
        Flat(if isDealer then RoundUp100(basePoints * 6) else RoundUp100(basePoints * 4))
      else if isDealer then
        All(RoundUp100(basePoints * 2))
      else
        Split(RoundUp100(basePoints * 2), RoundUp100(basePoints))
  }

  // ---------------------------------------------------------------------
  // A reference definition: basic points, then one payment rule

  /** The basic points of a limit hand of `han` han (five han or more). */
  function LimitBasicPoints(han: nat): nat
    requires han >= 5
  {
    if han >= 13 then 8000
    else if han >= 11 then 6000
    else if han >= 8 then 4000
    else if han >= 6 then 3000
    else 2000
  }

  /** Basic points: the limit value from five han, otherwise `fu * 2^(2 + han)`
      capped at the mangan value 2000. */
  function BasicPoints(han: nat, fu: nat): nat
  {
    if han >= 5 then LimitBasicPoints(han)
    else if fu * Pow2(2 + han) >= 2000 then 2000
    else fu * Pow2(2 + han)
  }

  /** The payments on basic points `b`: a ron is paid six (dealer) or four
      times `b`; a tsumo is paid twice `b` by the dealer and by everyone when
      the dealer wins, and `b` by the other non-dealers; each rounded up to 100. */
  function Payout(b: nat, isDealer: bool, winType: WinType): Points
  {
    match winType
    case Ron => Flat(RoundUp100(b * (if isDealer then 6 else 4)))
    case Tsumo =>
      if isDealer then All(RoundUp100(2 * b)) else Split(RoundUp100(2 * b), RoundUp100(b))
  }

  lemma RoundUpExact(k: nat)
    ensures RoundUp100(100 * k) == 100 * k
  {
    var r := RoundUp100(100 * k);
    assert r == 100 * (r / 100);
    assert 100 * k <= 100 * (r / 100) < 100 * k + 100;
  }

  /** The table is the payment rule applied to the basic points. */
  lemma ScoreIsPayout(han: nat, fu: nat, isDealer: bool, winType: WinType)
    ensures CalculateScoreFromHanFu(han, fu, isDealer, winType) == Payout(BasicPoints(han, fu), isDealer, winType)
  {
    var b := BasicPoints(han, fu);
    if han >= 5 || fu * Pow2(2 + han) >= 2000 {
      var k := b / 100;
      assert b == 100 * k;
      RoundUpExact(k);
      RoundUpExact(2 * k);
      RoundUpExact(4 * k);
      RoundUpExact(6 * k);
      assert 2 * b == 100 * (2 * k) && 4 * b == 100 * (4 * k) && 6 * b == 100 * (6 * k);
    }
  }

  // ---------------------------------------------------------------------
  // What the table promises

  /** A ron is paid as one number, a dealer's tsumo as `{all}` and a
      non-dealer's tsumo as `{dealer, nondealer}`. */
  lemma ScoreShape(han: nat, fu: nat, isDealer: bool, winType: WinType)
    ensures CalculateScoreFromHanFu(han, fu, isDealer, winType).Flat? <==> winType == Ron
    ensures CalculateScoreFromHanFu(han, fu, isDealer, winType).All? <==> winType == Tsumo && isDealer
    ensures CalculateScoreFromHanFu(han, fu, isDealer, winType).Split? <==> winType == Tsumo && !isDealer
  {
    ScoreIsPayout(han, fu, isDealer, winType);
  }

  /** Every amount is a multiple of 100. */
  predicate RoundAmounts(p: Points)
  {
    match p
    case Flat(a) => a % 100 == 0
    case All(a) => a % 100 == 0
    case Split(d, n) => d % 100 == 0 && n % 100 == 0
  }

  lemma ScoreRounded(han: nat, fu: nat, isDealer: bool, winType: WinType)
    ensures RoundAmounts(CalculateScoreFromHanFu(han, fu, isDealer, winType))
  {
    ScoreIsPayout(han, fu, isDealer, winType);
  }

  /** From five han the payment depends on han, dealer and win type alone. */
  lemma LimitIgnoresFu(han: nat, fu1: nat, fu2: nat, isDealer: bool, winType: WinType)
    requires han >= 5
    ensures CalculateScoreFromHanFu(han, fu1, isDealer, winType) == CalculateScoreFromHanFu(han, fu2, isDealer, winType)
    ensures CalculateScoreFromHanFu(han, fu1, isDealer, winType) == Payout(LimitBasicPoints(han), isDealer, winType)
  {
    ScoreIsPayout(han, fu1, isDealer, winType);
    ScoreIsPayout(han, fu2, isDealer, winType);
  }

  /** Below five han, a base of 2000 or more pays exactly the five-han row. */
  lemma ManganCap(han: nat, fu: nat, isDealer: bool, winType: WinType)
    requires han < 5 && fu * Pow2(2 + han) >= 2000
    ensures CalculateScoreFromHanFu(han, fu, isDealer, winType) == CalculateScoreFromHanFu(5, fu, isDealer, winType)
  {
  }

  /** Below five han a ron pays at most 12000 to the dealer and 8000 to anyone else. */
  lemma NonLimitRonBound(han: nat, fu: nat, isDealer: bool)
    requires han < 5
    ensures CalculateScoreFromHanFu(han, fu, isDealer, Ron).amount <= (if isDealer then 12000 else 8000)
  {
    ScoreIsPayout(han, fu, isDealer, Ron);
    var b := BasicPoints(han, fu);
    RoundUpExact(if isDealer then 120 else 80);
    RoundUpMonotone(b * (if isDealer then 6 else 4), 100 * (if isDealer then 120 else 80));
  }

  lemma RoundUpMonotone(x: nat, y: nat)
    requires x <= y
    ensures RoundUp100(x) <= RoundUp100(y)
  {
    var rx, ry := RoundUp100(x), RoundUp100(y);
    var a, b := rx / 100, ry / 100;
    assert rx == 100 * a && ry == 100 * b;
    assert 100 * a < 100 * b + 100;
    assert a <= b;
  }

  lemma {:induction false} Pow2Monotone(m: nat, n: nat)
    requires m <= n
    ensures Pow2(m) <= Pow2(n)
    decreases n
  {
    if m < n {
      Pow2Monotone(m, n - 1);
    }
  }

  /** `p` pays each share no more than `q` does, in the same shape. */
  predicate PaysAtMost(p: Points, q: Points)
  {
    match p
    case Flat(a) => q.Flat? && a <= q.amount
    case All(a) => q.All? && a <= q.all
    case Split(d, n) => q.Split? && d <= q.dealer && n <= q.nondealer
  }

  lemma MulMonotone(a: nat, b: nat, c: nat, d: nat)
    requires a <= c && b <= d
    ensures a * b <= c * d
  {
    assert a * b <= c * b;
    assert c * b <= c * d;
  }

  lemma BasicPointsMonotone(han1: nat, fu1: nat, han2: nat, fu2: nat)
    requires han1 <= han2 && fu1 <= fu2
    ensures BasicPoints(han1, fu1) <= BasicPoints(han2, fu2)
  {
    if han2 < 5 {
      Pow2Monotone(2 + han1, 2 + han2);
      MulMonotone(fu1, Pow2(2 + han1), fu2, Pow2(2 + han2));
    }
  }

  /** Larger basic points never pay less. */
  lemma PayoutMonotone(b1: nat, b2: nat, isDealer: bool, winType: WinType)
    requires b1 <= b2
    ensures PaysAtMost(Payout(b1, isDealer, winType), Payout(b2, isDealer, winType))
  {
    RoundUpMonotone(b1, b2);
    RoundUpMonotone(2 * b1, 2 * b2);
    RoundUpMonotone(4 * b1, 4 * b2);
    RoundUpMonotone(6 * b1, 6 * b2);
  }

  /** More han or more fu never pays less. */
  lemma ScoreMonotone(han1: nat, fu1: nat, han2: nat, fu2: nat, isDealer: bool, winType: WinType)
    requires han1 <= han2 && fu1 <= fu2
    ensures PaysAtMost(CalculateScoreFromHanFu(han1, fu1, isDealer, winType),
                       CalculateScoreFromHanFu(han2, fu2, isDealer, winType))
  {
    ScoreIsPayout(han1, fu1, isDealer, winType);
    ScoreIsPayout(han2, fu2, isDealer, winType);
    BasicPointsMonotone(han1, fu1, han2, fu2);
    PayoutMonotone(BasicPoints(han1, fu1), BasicPoints(han2, fu2), isDealer, winType);
  }

  // ---------------------------------------------------------------------
  // getLimitHandName

  datatype LimitHand = Mangan | Haneman | Baiman | Sanbaiman | Yakuman

  /** The limit hand named for `han` han, if any: same thresholds as the table. */
  function GetLimitHandName(han: nat): (r: Option<LimitHand>)
    ensures r == None <==> han < 5
  {
    if han >= 13 then Some(Yakuman)
    else if han >= 11 then Some(Sanbaiman)
    else if han >= 8 then Some(Baiman)
    else if han >= 6 then Some(Haneman)
    else if han >= 5 then Some(Mangan)
    else None
  }

  function LimitValue(l: LimitHand): nat
  {
    match l
    case Mangan => 2000
    case Haneman => 3000
    case Baiman => 4000
    case Sanbaiman => 6000
    case Yakuman => 8000
  }

  /** The name a hand is given and the row it is paid by agree: a named hand
      pays the payments on its limit's basic points, whatever its fu. */
  lemma LimitNameAgrees(han: nat, fu: nat, isDealer: bool, winType: WinType)
    ensures GetLimitHandName(han) != None ==>
      CalculateScoreFromHanFu(han, fu, isDealer, winType) == Payout(LimitValue(GetLimitHandName(han).value), isDealer, winType)
    ensures GetLimitHandName(han) == None ==> BasicPoints(han, fu) <= 2000
  {
    ScoreIsPayout(han, fu, isDealer, winType);
  }
}
