/** The statistical bid detectors over exact reals; comparing squares replaces the square roots. */
module BidStatistics {
  import opened Common

  datatype Severity = MEDIUM | HIGH

  datatype Alert = Alert(bid: nat, severity: Severity)

  const Z_SCORE_MEDIUM := 2.0
  const Z_SCORE_HIGH := 3.0
  const MIN_BIDS_FOR_ZSCORE := 4
  const ESTIMATE_DEVIATION_THRESHOLD := 0.5
  const COLLUSION_MIN_BIDS := 3
  const CV_HIGH := 0.02
  const CV_MEDIUM := 0.05

  function Total(xs: seq<real>): real {
    if xs == [] then 0.0 else xs[0] + Total(xs[1..])
  }

  function Times(x: real, y: real): real {
    x * y
  }

  function Square(x: real): real {
    Times(x, x)
  }

  /** The squared deviations from `m`, added up. */
  function Spread(xs: seq<real>, m: real): real {
    if xs == [] then 0.0 else Square(xs[0] - m) + Spread(xs[1..], m)
  }

  function Mean(xs: seq<real>): real
    requires xs != []
  {
    Total(xs) / |xs| as real
  }

  function Variance(xs: seq<real>): real
    requires xs != []
  {
    Spread(xs, Mean(xs)) / |xs| as real
  }

  function Peers(xs: seq<real>, i: nat): seq<real>
    requires i < |xs|
  {
    xs[..i] + xs[i + 1..]
  }

  /** Whether `x` is at least `t` standard deviations from the mean of `reference`. */
  predicate AtLeast(x: real, reference: seq<real>, t: real)
    requires reference != []
  {
    Square(x - Mean(reference)) >= Square(t) * Variance(reference)
  }

  /** The score of a bid against the other bids, when those differ. */
  function PeerSeverity(xs: seq<real>, i: nat): Option<Severity>
    requires i < |xs| && 2 <= |xs|
  {
    var peers := Peers(xs, i);
    if Variance(peers) <= 0.0 then None
    else if AtLeast(xs[i], peers, Z_SCORE_HIGH) then Some(HIGH)
    else if AtLeast(xs[i], peers, Z_SCORE_MEDIUM) then Some(MEDIUM)
    else None
  }

  function Magnitude(x: real): real {
    if x < 0.0 then -x else x
  }

  function EstimateSeverity(x: real, estimate: real): Option<Severity> {
    var deviation := if estimate > 0.0 then Magnitude(x - estimate) / estimate else 0.0;
    if deviation > ESTIMATE_DEVIATION_THRESHOLD then Some(MEDIUM) else None
  }

  function BidSeverity(xs: seq<real>, estimate: real, i: nat): Option<Severity>
    requires i < |xs|
  {
    if |xs| >= MIN_BIDS_FOR_ZSCORE then PeerSeverity(xs, i) else EstimateSeverity(xs[i], estimate)
  }

  /** The coefficient of variation is below `cv`, for a positive mean. */
  predicate Uniform(xs: seq<real>, cv: real)
    requires xs != []
  {
    Variance(xs) < Square(cv * Mean(xs))
  }

  function CollusionSeverity(xs: seq<real>): Option<Severity> {
    if |xs| < COLLUSION_MIN_BIDS || Mean(xs) == 0.0 then None
    else if Mean(xs) < 0.0 || Uniform(xs, CV_HIGH) then Some(HIGH)
    else if Uniform(xs, CV_MEDIUM) then Some(MEDIUM)
    else None
  }

  // Sums

  lemma {:induction false} TotalSplit(xs: seq<real>, i: nat)
    requires i < |xs|
    ensures Total(xs) == xs[i] + Total(Peers(xs, i))
  {
    if i > 0 {
      TotalSplit(xs[1..], i - 1);
      assert Peers(xs, i) == [xs[0]] + Peers(xs[1..], i - 1);
    } else {
      assert Peers(xs, 0) == xs[1..];
    }
  }

  lemma SpreadFirst(x: real, rest: seq<real>, m: real)
    ensures Spread([x] + rest, m) == Square(x - m) + Spread(rest, m)
    ensures Total([x] + rest) == x + Total(rest)
  {
    hide Square;
    assert ([x] + rest)[1..] == rest;
  }

  lemma {:induction false} SpreadSplit(xs: seq<real>, i: nat, m: real)
    requires i < |xs|
    ensures Spread(xs, m) == Square(xs[i] - m) + Spread(Peers(xs, i), m)
  {
    hide Square, Spread;
    assert xs == [xs[0]] + xs[1..];
    SpreadFirst(xs[0], xs[1..], m);
    if i > 0 {
      SpreadSplit(xs[1..], i - 1, m);
      assert Peers(xs, i) == [xs[0]] + Peers(xs[1..], i - 1);
      SpreadFirst(xs[0], Peers(xs[1..], i - 1), m);
    } else {
      assert Peers(xs, 0) == xs[1..];
    }
  }

  lemma TimesSign(x: real, y: real)
    ensures x > 0.0 && y > 0.0 ==> Times(x, y) > 0.0
    ensures x == 0.0 ==> Times(x, y) == 0.0
    ensures Times(-x, -y) == Times(x, y)
  {}

  lemma SquareSign(x: real)
    ensures Square(x) >= 0.0
    ensures Square(x) == 0.0 <==> x == 0.0
    ensures Square(-x) == Square(x)
  {
    hide Times;
    TimesSign(x, x);
    TimesSign(-x, -x);
  }

  lemma {:induction false} SpreadNonNegative(xs: seq<real>, m: real)
    ensures Spread(xs, m) >= 0.0
    ensures Spread(xs, m) == 0.0 <==> forall i | 0 <= i < |xs| :: xs[i] == m
  {
    hide Square;
    if xs != [] {
      SpreadNonNegative(xs[1..], m);
      SquareSign(xs[0] - m);
      assert forall i | 0 < i < |xs| :: xs[i] == xs[1..][i - 1];
    }
  }

  /** The spread about m - d of n numbers that add up to t and have spread s about m. */
  function Shifted(s: real, n: real, t: real, m: real, d: real): real {
    s + 2.0 * (d * (t - n * m)) + n * (d * d)
  }

  /** Moving the point that deviations are measured from: the parallel axis rule. */
  lemma {:induction false} SpreadShift(xs: seq<real>, m: real, d: real)
    ensures Spread(xs, m - d) == Shifted(Spread(xs, m), |xs| as real, Total(xs), m, d)
  {
    hide Square, Shifted;
    if xs == [] {
      ShiftNone(m, d);
    } else {
      hide Spread, Total;
      SpreadShift(xs[1..], m, d);
      assert xs == [xs[0]] + xs[1..];
      SpreadFirst(xs[0], xs[1..], m);
      SpreadFirst(xs[0], xs[1..], m - d);
      ShiftOne(xs[0], |xs[1..]| as real, Spread(xs[1..], m), Total(xs[1..]), m, d);
    }
  }

  lemma ShiftNone(m: real, d: real)
    ensures Shifted(0.0, 0.0, 0.0, m, d) == 0.0
  {}

  lemma ShiftOne(x: real, n: real, s: real, t: real, m: real, d: real)
    ensures Square(x - (m - d)) + Shifted(s, n, t, m, d) == Shifted(Square(x - m) + s, n + 1.0, x + t, m, d)
  {}

  lemma MeanTotal(xs: seq<real>)
    requires xs != []
    ensures Total(xs) == |xs| as real * Mean(xs)
  {}

  /** The spread about any point is least about the mean. */
  lemma SpreadAboutMean(xs: seq<real>, m: real)
    requires xs != []
    ensures Spread(xs, m) == Spread(xs, Mean(xs)) + |xs| as real * Square(m - Mean(xs))
  {
    hide Square, Spread, Total, Mean;
    MeanTotal(xs);
    var d := Mean(xs) - m;
    SpreadShift(xs, Mean(xs), d);
    assert Mean(xs) - d == m;
    ShiftFromMean(Spread(xs, Mean(xs)), |xs| as real, Mean(xs), d);
    SquareSign(d);
    assert -d == m - Mean(xs);
  }

  lemma ShiftFromMean(s: real, n: real, m: real, d: real)
    ensures Shifted(s, n, n * m, m, d) == s + n * Square(d)
  {}

  /** A bid is n / (n - 1) times as far from its peers' mean as from the mean of all. */
  lemma PeerDeviation(xs: seq<real>, i: nat)
    requires i < |xs| && 2 <= |xs|
    ensures (|xs| - 1) as real * (xs[i] - Mean(Peers(xs, i))) == |xs| as real * (xs[i] - Mean(xs))
  {
    hide Total, Mean;
    TotalSplit(xs, i);
    MeanTotal(xs);
    MeanTotal(Peers(xs, i));
  }

  /** Leaving a bid out takes n / (n - 1) times its squared deviation from the spread. */
  lemma PeerSpread(xs: seq<real>, i: nat)
    requires i < |xs| && 2 <= |xs|
    ensures var n, peers := |xs| as real, Peers(xs, i);
            (n - 1.0) * Spread(peers, Mean(peers)) == (n - 1.0) * Spread(xs, Mean(xs)) - n * Square(xs[i] - Mean(xs))
  {
    hide Square, Spread, Total, Mean, Peers;
    var n, peers, m := |xs| as real, Peers(xs, i), Mean(xs);
    PeersLength(xs, i);
    SpreadSplit(xs, i, m);
    SpreadAboutMean(peers, m);
    PeerDeviation(xs, i);
    MeanGap(n, xs[i] - m, m - Mean(peers), xs[i] - Mean(peers));
    SpreadAlgebra(n, xs[i] - m, m - Mean(peers), Spread(xs, m), Spread(peers, m), Spread(peers, Mean(peers)));
  }

  lemma PeersLength(xs: seq<real>, i: nat)
    requires i < |xs|
    ensures |Peers(xs, i)| == |xs| - 1
  {}

  lemma MeanGap(n: real, e: real, g: real, d: real)
    requires d == e + g && (n - 1.0) * d == n * e
    ensures (n - 1.0) * g == e
  {}

  lemma SpreadAlgebra(n: real, e: real, g: real, all: real, others: real, own: real)
    requires (n - 1.0) * g == e && all == Square(e) + others && others == own + (n - 1.0) * Square(g)
    ensures (n - 1.0) * own == (n - 1.0) * all - n * Square(e)
  {
    SquareTimes(n - 1.0, g);
  }

  lemma SquareTimes(k: real, x: real)
    ensures Square(k * x) == k * (k * Square(x))
  {}

  // The leave-one-out score

  lemma Cancel(k: real, x: real, y: real)
    requires k > 0.0
    ensures k * x == k * y ==> x == y
    ensures k * x >= k * y <==> x >= y
    ensures k * x > k * y <==> x > y
  {
    var d := x - y;
    assert k * x - k * y == k * d;
    TimesSign(k, d);
    TimesSign(k, -d);
    assert k * -d == -(k * d);
  }

  /**
   * The squares that a bid's scores are made of: n bids, spread `all`, peers' spread `own`, squared deviations `e` and
   * `d`.
   */
  ghost predicate Related(n: real, all: real, own: real, e: real, d: real) {
    && n >= 2.0 && all >= 0.0 && own >= 0.0 && e >= 0.0 && d >= 0.0
    && (n - 1.0) * own == (n - 1.0) * all - n * e
    && (n - 1.0) * ((n - 1.0) * d) == n * (n * e)
  }

  lemma ScoresRelated(xs: seq<real>, i: nat)
    requires i < |xs| && 2 <= |xs|
    ensures var n, peers := |xs| as real, Peers(xs, i);
            Related(n, Spread(xs, Mean(xs)), Spread(peers, Mean(peers)), Square(xs[i] - Mean(xs)),
              Square(xs[i] - Mean(peers)))
  {
    hide Square, Spread, Mean, Peers;
    var n, peers := |xs| as real, Peers(xs, i);
    PeersLength(xs, i);
    PeerSpread(xs, i);
    PeerDeviation(xs, i);
    var e, d := xs[i] - Mean(xs), xs[i] - Mean(peers);
    assert (|xs| - 1) as real == n - 1.0;
    SquaresRelated(n, e, d);
    SpreadNonNegative(xs, Mean(xs));
    SpreadNonNegative(peers, Mean(peers));
    SquareSign(xs[i] - Mean(xs));
    SquareSign(xs[i] - Mean(peers));
  }

  lemma SquaresRelated(n: real, e: real, d: real)
    requires (n - 1.0) * d == n * e
    ensures (n - 1.0) * ((n - 1.0) * Square(d)) == n * (n * Square(e))
  {
    hide Square;
    SquareOf(n - 1.0, d, n * e);
    SquareOf(n, e, n * e);
  }

  lemma SquareOf(k: real, x: real, y: real)
    requires k * x == y
    ensures Square(y) == k * (k * Square(x))
  {
    SquareTimes(k, x);
  }

  lemma PeerThresholdAlgebra(n: real, all: real, own: real, e: real, d: real, tt: real)
    requires Related(n, all, own, e, d)
    ensures (n - 1.0) * d >= tt * own <==> (n + tt) * (n * e) >= tt * ((n - 1.0) * all)
  {
    Cancel(n - 1.0, (n - 1.0) * d, tt * own);
    assert (n - 1.0) * (tt * own) == tt * ((n - 1.0) * own);
    assert tt * ((n - 1.0) * own) == tt * ((n - 1.0) * all) - tt * (n * e);
    assert (n + tt) * (n * e) == n * (n * e) + tt * (n * e);
  }

  lemma AtLeastSpread(x: real, reference: seq<real>, t: real)
    requires reference != []
    ensures AtLeast(x, reference, t) <==>
              |reference| as real * Square(x - Mean(reference)) >= Square(t) * Spread(reference, Mean(reference))
  {
    hide Square, Spread, Mean;
    var n, s, tt := |reference| as real, Spread(reference, Mean(reference)), Square(t);
    Cancel(n, Square(x - Mean(reference)), tt * (s / n));
    ScaleQuotient(n, s, tt);
  }

  lemma ScaleQuotient(n: real, s: real, t: real)
    requires n > 0.0
    ensures n * (t * (s / n)) == t * s
  {
    assert n * (s / n) == s;
    assert n * (t * (s / n)) == t * (n * (s / n));
  }

  /**
   * A bid is `t` deviations away from its peers exactly when its ordinary squared score reaches t * t * (n - 1) / (n +
   * t * t).
   */
  lemma PeerThreshold(xs: seq<real>, i: nat, t: real)
    requires i < |xs| && 2 <= |xs|
    ensures var n := |xs| as real;
            AtLeast(xs[i], Peers(xs, i), t) <==>
              (n + Square(t)) * (n * Square(xs[i] - Mean(xs))) >= Square(t) * ((n - 1.0) * Spread(xs, Mean(xs)))
  {
    hide Square, Spread, Mean, Peers, AtLeast, Related;
    var n, peers := |xs| as real, Peers(xs, i);
    PeersLength(xs, i);
    ScoresRelated(xs, i);
    AtLeastSpread(xs[i], peers, t);
    PeerThresholdAlgebra(n, Spread(xs, Mean(xs)), Spread(peers, Mean(peers)), Square(xs[i] - Mean(xs)),
      Square(xs[i] - Mean(peers)), Square(t));
  }

  predicate AllEqual(xs: seq<real>) {
    forall i, j | 0 <= i < |xs| && 0 <= j < |xs| :: xs[i] == xs[j]
  }

  lemma {:induction false} EqualTotal(xs: seq<real>, m: real)
    requires forall i | 0 <= i < |xs| :: xs[i] == m
    ensures Total(xs) == |xs| as real * m
  {
    if xs != [] {
      EqualTotal(xs[1..], m);
      EqualStep(|xs| as real, m);
    }
  }

  lemma EqualStep(n: real, m: real)
    ensures m + (n - 1.0) * m == n * m
  {}

  lemma NoVarianceIffEqual(xs: seq<real>)
    requires xs != []
    ensures Variance(xs) >= 0.0
    ensures Variance(xs) == 0.0 <==> AllEqual(xs)
  {
    hide Total, Spread, Square;
    SpreadNonNegative(xs, Mean(xs));
    var n, s := |xs| as real, Spread(xs, Mean(xs));
    QuotientSign(s, n);
    if AllEqual(xs) {
      EqualTotal(xs, xs[0]);
      QuotientExact(n, xs[0]);
    }
  }

  lemma QuotientSign(s: real, n: real)
    requires s >= 0.0 && n > 0.0
    ensures s / n >= 0.0 && (s / n == 0.0 <==> s == 0.0)
  {
    assert n * (s / n) == s;
    Cancel(n, s / n, 0.0);
  }

  lemma QuotientExact(n: real, m: real)
    requires n > 0.0
    ensures n * m / n == m
  {
    Cancel(n, n * m / n, m);
  }

  /** The score of a bid against all bids, itself included: what the code deliberately does not use. */
  function PopulationSeverity(xs: seq<real>, i: nat): Option<Severity>
    requires i < |xs|
  {
    if Variance(xs) <= 0.0 then None
    else if AtLeast(xs[i], xs, Z_SCORE_HIGH) then Some(HIGH)
    else if AtLeast(xs[i], xs, Z_SCORE_MEDIUM) then Some(MEDIUM)
    else None
  }

  function Rank(s: Option<Severity>): nat {
    match s case None => 0 case Some(MEDIUM) => 1 case Some(HIGH) => 2
  }

  lemma PopulationImpliesPeers(xs: seq<real>, i: nat, t: real)
    requires i < |xs| && 2 <= |xs| && AtLeast(xs[i], xs, t)
    ensures AtLeast(xs[i], Peers(xs, i), t)
  {
    hide Square, Spread, Mean, Peers, AtLeast;
    PeerThreshold(xs, i, t);
    AtLeastSpread(xs[i], xs, t);
    SquareSign(t);
    SpreadNonNegative(xs, Mean(xs));
    Monotone(|xs| as real, Square(t), |xs| as real * Square(xs[i] - Mean(xs)), Spread(xs, Mean(xs)));
  }

  lemma Monotone(n: real, tt: real, ne: real, all: real)
    requires n >= 2.0 && tt >= 0.0 && all >= 0.0 && ne >= tt * all
    ensures (n + tt) * ne >= tt * ((n - 1.0) * all)
  {
    assert tt * all >= 0.0;
    Cancel(n + tt, ne, tt * all);
    assert (n + tt) * (tt * all) == tt * ((n - 1.0) * all) + (1.0 + tt) * (tt * all);
    assert (1.0 + tt) * (tt * all) >= 0.0;
  }

  /**
    * Leaving a bid out of its own reference flags every bid that the ordinary score flags, at least
    * as severely, unless its peers all bid the same: then, and only then, a flag can be lost.
    */
  lemma NoMasking(xs: seq<real>, estimate: real, i: nat)
    requires i < |xs| && MIN_BIDS_FOR_ZSCORE <= |xs|
    ensures PopulationSeverity(xs, i) != None ==>
              (Rank(PopulationSeverity(xs, i)) <= Rank(BidSeverity(xs, estimate, i)) <==> !AllEqual(Peers(xs, i)))
  {
    hide AtLeast, Variance, AllEqual;
    PeersLength(xs, i);
    NoVarianceIffEqual(Peers(xs, i));
    if AtLeast(xs[i], xs, Z_SCORE_HIGH) { PopulationImpliesPeers(xs, i, Z_SCORE_HIGH); }
    if AtLeast(xs[i], xs, Z_SCORE_MEDIUM) { PopulationImpliesPeers(xs, i, Z_SCORE_MEDIUM); }
  }

  /** The ordinary score never reaches `t` on a lot of at most t * t bids, however far out the bid is. */
  lemma PopulationBlind(xs: seq<real>, i: nat, t: real)
    requires i < |xs| && 2 <= |xs| && |xs| as real <= Square(t) && Variance(xs) > 0.0
    ensures !AtLeast(xs[i], xs, t)
  {
    hide Square, Spread, Mean, Peers, AtLeast, Related;
    var peers := Peers(xs, i);
    PeersLength(xs, i);
    ScoresRelated(xs, i);
    AtLeastSpread(xs[i], xs, t);
    SpreadPositive(xs);
    BlindAlgebra(|xs| as real, Spread(xs, Mean(xs)), Spread(peers, Mean(peers)), Square(xs[i] - Mean(xs)),
      Square(xs[i] - Mean(peers)), Square(t));
  }

  lemma BlindAlgebra(n: real, all: real, own: real, e: real, d: real, tt: real)
    requires Related(n, all, own, e, d) && all > 0.0 && n <= tt
    ensures n * e < tt * all
  {
    assert (n - 1.0) * own >= 0.0;
    assert n * e <= (n - 1.0) * all;
    Cancel(all, tt, n - 1.0);
  }

  lemma SpreadPositive(xs: seq<real>)
    requires xs != [] && Variance(xs) > 0.0
    ensures Spread(xs, Mean(xs)) > 0.0
  {
    hide Spread, Mean;
    SpreadNonNegative(xs, Mean(xs));
    QuotientSign(Spread(xs, Mean(xs)), |xs| as real);
  }

  /** The squared score of bid `i` against `reference`. */
  function ScoreSquared(x: real, reference: seq<real>): real
    requires reference != [] && Variance(reference) > 0.0
  {
    Square(x - Mean(reference)) / Variance(reference)
  }

  lemma ScoreTimesSpread(x: real, reference: seq<real>)
    requires reference != [] && Variance(reference) > 0.0
    ensures ScoreSquared(x, reference) * Spread(reference, Mean(reference))
            == |reference| as real * Square(x - Mean(reference))
  {
    hide Square, Spread, Mean;
    var n, s, e := |reference| as real, Spread(reference, Mean(reference)), Square(x - Mean(reference));
    var v := s / n;
    assert n * v == s;
    assert v * (e / v) == e;
    assert (e / v) * (n * v) == n * (v * (e / v));
  }

  lemma ScoreAlgebra(n: real, all: real, own: real, e: real, d: real, q: real, z: real)
    requires Related(n, all, own, e, d) && all > 0.0 && own > 0.0
    requires q * all == n * e && z * own == (n - 1.0) * d
    ensures q < n - 1.0 && z * (n - 1.0 - q) == n * q
  {
    assert (n - 1.0 - q) * all == (n - 1.0) * own;
    Products(n, all, own, q, z, d);
    FactorPositive(n - 1.0 - q, all, (n - 1.0) * own);
    assert all * (n * q) == n * (q * all);
    Cancel(all, z * (n - 1.0 - q), n * q);
  }

  lemma FactorPositive(x: real, k: real, y: real)
    requires x * k == y && y > 0.0 && k > 0.0
    ensures x > 0.0
  {
    Cancel(k, x, 0.0);
  }

  lemma Products(n: real, all: real, own: real, q: real, z: real, d: real)
    requires (n - 1.0 - q) * all == (n - 1.0) * own && z * own == (n - 1.0) * d && n >= 2.0 && own > 0.0
    ensures all * (z * (n - 1.0 - q)) == (n - 1.0) * ((n - 1.0) * d)
    ensures (n - 1.0) * own > 0.0
  {
    assert all * (z * (n - 1.0 - q)) == z * ((n - 1.0 - q) * all);
    assert z * ((n - 1.0) * own) == (n - 1.0) * (z * own);
    TimesSign(n - 1.0, own);
  }

  /** The leave-one-out score in terms of the ordinary one: z * z == n * q / (n - 1 - q). */
  lemma LeaveOneOutScore(xs: seq<real>, i: nat)
    requires i < |xs| && 2 <= |xs| && Variance(xs) > 0.0 && Variance(Peers(xs, i)) > 0.0
    ensures var n, q := |xs| as real, ScoreSquared(xs[i], xs);
            q < n - 1.0 && ScoreSquared(xs[i], Peers(xs, i)) == n * q / (n - 1.0 - q)
  {
    hide Square, Spread, Mean, Peers, ScoreSquared, Variance, Related;
    var n, peers := |xs| as real, Peers(xs, i);
    PeersLength(xs, i);
    var q, z := ScoreSquared(xs[i], xs), ScoreSquared(xs[i], peers);
    ScoresRelated(xs, i);
    SpreadPositive(xs);
    SpreadPositive(peers);
    ScoreTimesSpread(xs[i], xs);
    ScoreTimesSpread(xs[i], peers);
    assert (|xs| - 1) as real == n - 1.0;
    ScoreAlgebra(n, Spread(xs, Mean(xs)), Spread(peers, Mean(peers)), Square(xs[i] - Mean(xs)),
      Square(xs[i] - Mean(peers)), q, z);
    Cancel(n - 1.0 - q, z, n * q / (n - 1.0 - q));
    assert (n - 1.0 - q) * (n * q / (n - 1.0 - q)) == n * q;
  }

  /** With three evenly spaced bids the outer ones always score exactly 3, whatever the spacing. */
  lemma EvenSpacing(a: real, k: real)
    requires k != 0.0
    ensures var xs := [a, a + k, a + 2.0 * k];
            && Variance(Peers(xs, 0)) > 0.0 && Variance(Peers(xs, 2)) > 0.0
            && ScoreSquared(xs[0], Peers(xs, 0)) == 9.0 && ScoreSquared(xs[2], Peers(xs, 2)) == 9.0
  {
    var xs := [a, a + k, a + 2.0 * k];
    assert Peers(xs, 0) == [a + k, a + 2.0 * k] && Peers(xs, 2) == [a, a + k];
    PairVariance(a + k, k);
    PairVariance(a, k);
    hide Variance, Mean, Square;
    assert [a + k, a + 2.0 * k] == [a + k, (a + k) + k];
    SquareSign(k);
    SquareTimes(1.5, k);
    assert xs[0] - Mean(Peers(xs, 0)) == -(1.5 * k);
    assert xs[2] - Mean(Peers(xs, 2)) == 1.5 * k;
    SquareSign(1.5 * k);
    Nine(Square(k));
  }

  lemma Nine(s: real)
    requires s > 0.0
    ensures 0.25 * s > 0.0 && 1.5 * (1.5 * s) / (0.25 * s) == 9.0
  {}

  lemma PairVariance(a: real, k: real)
    ensures Mean([a, a + k]) == a + 0.5 * k
    ensures Variance([a, a + k]) == 0.25 * Square(k)
  {
    hide Square;
    var m := a + 0.5 * k;
    PairSums(a, a + k, m);
    assert a - m == -(0.5 * k) && a + k - m == 0.5 * k;
    SquareSign(0.5 * k);
    SquareTimes(0.5, k);
  }

  lemma PairSums(x: real, y: real, m: real)
    ensures Total([x, y]) == x + y && Spread([x, y], m) == Square(x - m) + Square(y - m)
  {
    hide Square;
    assert [x] + [y] == [x, y] && [y] + [] == [y];
    SpreadFirst(x, [y], m);
    SpreadFirst(y, [], m);
  }

  /** The family of outliers that leaving them out hides: five or more bids, all but one of them equal. */
  lemma EqualPeersHide(xs: seq<real>, estimate: real, i: nat, j: nat)
    requires i < |xs| && j < |xs| && 5 <= |xs| && xs[i] != xs[j] && AllEqual(Peers(xs, i))
    ensures PopulationSeverity(xs, i) != None && BidSeverity(xs, estimate, i) == None
  {
    hide AtLeast, Spread, Square, Related;
    var n, peers := |xs| as real, Peers(xs, i);
    NoVarianceIffEqual(peers);
    NoVarianceIffEqual(xs);
    hide AllEqual, Peers;
    PeersLength(xs, i);
    ScoresRelated(xs, i);
    AtLeastSpread(xs[i], xs, Z_SCORE_MEDIUM);
    SpreadNonNegative(peers, Mean(peers));
    QuotientSign(Spread(peers, Mean(peers)), |peers| as real);
    SquareTimes(2.0, 1.0);
    HiddenAlgebra(n, Spread(xs, Mean(xs)), Spread(peers, Mean(peers)), Square(xs[i] - Mean(xs)),
      Square(xs[i] - Mean(peers)));
    FourSquare();
  }

  lemma FourSquare()
    ensures Square(2.0) == 4.0 && Square(3.0) == 9.0
  {}

  lemma FourBidsUnflagged(xs: seq<real>, i: nat)
    requires i < |xs| == 4
    ensures PopulationSeverity(xs, i) == None
  {
    hide AtLeast, Variance, Square;
    FourSquare();
    if Variance(xs) > 0.0 {
      PopulationBlind(xs, i, Z_SCORE_MEDIUM);
      PopulationBlind(xs, i, Z_SCORE_HIGH);
    }
  }

  lemma SomeOther(xs: seq<real>, i: nat) returns (j: nat)
    requires i < |xs| && AllEqual(Peers(xs, i)) && !AllEqual(xs)
    ensures j < |xs| && xs[j] != xs[i]
  {
    var k, l :| 0 <= k < |xs| && 0 <= l < |xs| && xs[k] != xs[l];
    j := if xs[k] != xs[i] then k else l;
  }

  /**
   * A flag of the ordinary score is lost or lowered exactly on five or more bids of which all but this one are equal.
   */
  lemma MaskedExactly(xs: seq<real>, estimate: real, i: nat)
    requires i < |xs| && MIN_BIDS_FOR_ZSCORE <= |xs|
    ensures Rank(BidSeverity(xs, estimate, i)) < Rank(PopulationSeverity(xs, i))
            <==> 5 <= |xs| && AllEqual(Peers(xs, i)) && !AllEqual(xs)
  {
    hide BidSeverity, PopulationSeverity, AllEqual, Peers;
    NoMasking(xs, estimate, i);
    FlaggedDiffer(xs, i);
    if |xs| == 4 {
      FourBidsUnflagged(xs, i);
    } else if AllEqual(Peers(xs, i)) && !AllEqual(xs) {
      var j := SomeOther(xs, i);
      EqualPeersHide(xs, estimate, i, j);
    }
  }

  lemma FlaggedDiffer(xs: seq<real>, i: nat)
    requires i < |xs|
    ensures PopulationSeverity(xs, i) != None ==> !AllEqual(xs)
  {
    hide AtLeast, Variance, AllEqual;
    NoVarianceIffEqual(xs);
  }

  lemma HiddenAlgebra(n: real, all: real, own: real, e: real, d: real)
    requires Related(n, all, own, e, d) && n >= 5.0 && own == 0.0
    ensures n * e >= 4.0 * all
  {
    assert (n - 1.0) * own == 0.0;
    Cancel(n, n - 1.0, 4.0);
    assert (n - 5.0) * all >= 0.0;
  }

  // Scale

  function Rated(x: real, k: real, c: real): real {
    k * x + c
  }

  /** The same bids in another currency and counted from another amount. */
  function Affine(xs: seq<real>, k: real, c: real): seq<real> {
    if xs == [] then [] else [Rated(xs[0], k, c)] + Affine(xs[1..], k, c)
  }

  lemma {:induction false} AffineAt(xs: seq<real>, k: real, c: real)
    ensures |Affine(xs, k, c)| == |xs|
    ensures forall i | 0 <= i < |xs| :: Affine(xs, k, c)[i] == Rated(xs[i], k, c)
  {
    hide Rated;
    if xs != [] { AffineAt(xs[1..], k, c); }
  }

  lemma AffinePeers(xs: seq<real>, k: real, c: real, i: nat)
    requires i < |xs| && |Affine(xs, k, c)| == |xs|
    ensures Peers(Affine(xs, k, c), i) == Affine(Peers(xs, i), k, c)
  {
    AffineAt(xs, k, c);
    AffineAt(Peers(xs, i), k, c);
    hide Affine, Rated, Peers;
    PeersAt(xs, i);
    PeersAt(Affine(xs, k, c), i);
    var one, two := Peers(Affine(xs, k, c), i), Affine(Peers(xs, i), k, c);
    forall j | 0 <= j < |one| ensures one[j] == two[j] {}
    assert |one| == |two|;
  }

  lemma PeersAt(xs: seq<real>, i: nat)
    requires i < |xs|
    ensures |Peers(xs, i)| == |xs| - 1
    ensures forall j | 0 <= j < |xs| - 1 :: Peers(xs, i)[j] == xs[if j < i then j else j + 1]
  {}

  lemma {:induction false} AffineTotal(xs: seq<real>, k: real, c: real)
    ensures Total(Affine(xs, k, c)) == k * Total(xs) + |xs| as real * c
  {
    if xs != [] {
      AffineTotal(xs[1..], k, c);
      TotalStep(|xs| as real, k, c, xs[0], Total(xs[1..]));
    }
  }

  lemma TotalStep(n: real, k: real, c: real, x: real, t: real)
    ensures k * x + c + (k * t + (n - 1.0) * c) == k * (x + t) + n * c
  {}

  lemma AffineMean(xs: seq<real>, k: real, c: real)
    requires xs != [] && Affine(xs, k, c) != []
    ensures Mean(Affine(xs, k, c)) == k * Mean(xs) + c
  {
    hide Total, Mean, Affine;
    AffineAt(xs, k, c);
    AffineTotal(xs, k, c);
    MeanTotal(xs);
    MeanTotal(Affine(xs, k, c));
    assert |Affine(xs, k, c)| as real == |xs| as real;
    MeanOf(|xs| as real, k, c, Total(xs), Mean(xs), Total(Affine(xs, k, c)), Mean(Affine(xs, k, c)));
  }

  lemma MeanOf(n: real, k: real, c: real, t: real, u: real, kt: real, v: real)
    requires n > 0.0 && t == n * u && kt == k * t + n * c && kt == n * v
    ensures v == k * u + c
  {
    Equal(n, v, k * u + c);
  }

  lemma Equal(n: real, x: real, y: real)
    requires n > 0.0 && n * x == n * y
    ensures x == y
  {
    Cancel(n, x, y);
  }

  lemma {:induction false} AffineSpread(xs: seq<real>, k: real, c: real, m: real, km: real)
    requires km == k * m + c
    ensures Spread(Affine(xs, k, c), km) == k * (k * Spread(xs, m))
  {
    hide Square;
    if xs != [] {
      AffineSpread(xs[1..], k, c, m, km);
      SquareOf(k, xs[0] - m, k * xs[0] + c - km);
    }
  }

  /** Neither the currency nor the origin that bids are counted in changes which of them stand out. */
  lemma AtLeastAffine(x: real, reference: seq<real>, t: real, k: real, c: real, kx: real)
    requires reference != [] && k != 0.0 && Affine(reference, k, c) != [] && kx == Rated(x, k, c)
    ensures AtLeast(kx, Affine(reference, k, c), t) <==> AtLeast(x, reference, t)
  {
    hide Square, Spread, Mean, Affine, AtLeast;
    var scaled := Affine(reference, k, c);
    AffineAt(reference, k, c);
    AffineMean(reference, k, c);
    AffineSpread(reference, k, c, Mean(reference), Mean(scaled));
    AtLeastSpread(x, reference, t);
    AtLeastSpread(kx, scaled, t);
    SquareOf(k, x - Mean(reference), kx - Mean(scaled));
    assert |scaled| as real == |reference| as real;
    ScaleBoth(k, |reference| as real, Square(x - Mean(reference)), Square(t), Spread(reference, Mean(reference)),
              Square(kx - Mean(scaled)), Spread(scaled, Mean(scaled)));
  }

  lemma ScaleBoth(k: real, n: real, e: real, tt: real, s: real, ke: real, ks: real)
    requires k != 0.0 && ke == k * (k * e) && ks == k * (k * s)
    ensures n * ke >= tt * ks <==> n * e >= tt * s
  {
    hide Square;
    SquareSign(k);
    SquareOut(k, n, e);
    SquareOut(k, tt, s);
    CancelBoth(Square(k), n * e, tt * s, n * ke, tt * ks);
  }

  lemma SquareOut(k: real, x: real, y: real)
    ensures x * (k * (k * y)) == Square(k) * (x * y)
  {}

  lemma CancelBoth(k: real, x: real, y: real, kx: real, ky: real)
    requires k > 0.0 && kx == k * x && ky == k * y
    ensures kx >= ky <==> x >= y
    ensures kx > ky <==> x > y
  {
    Cancel(k, x, y);
  }

  lemma VarianceAffine(xs: seq<real>, k: real, c: real)
    requires xs != [] && k != 0.0 && Affine(xs, k, c) != []
    ensures Variance(Affine(xs, k, c)) > 0.0 <==> Variance(xs) > 0.0
  {
    hide Variance;
    NoVarianceIffEqual(xs);
    NoVarianceIffEqual(Affine(xs, k, c));
    AffineAt(xs, k, c);
    forall i, j | 0 <= i < |xs| && 0 <= j < |xs| ensures k * xs[i] + c == k * xs[j] + c <==> xs[i] == xs[j] {
      SameScaled(k, c, xs[i], xs[j]);
    }
  }

  lemma SameScaled(k: real, c: real, x: real, y: real)
    requires k != 0.0
    ensures k * x + c == k * y + c <==> x == y
  {
    if k > 0.0 { Cancel(k, x, y); } else { Cancel(-k, x, y); assert -k * x == -(k * x) && -k * y == -(k * y); }
  }

  lemma PeerSeverityAffine(xs: seq<real>, i: nat, k: real, c: real)
    requires i < |xs| && 2 <= |xs| && k != 0.0 && |Affine(xs, k, c)| == |xs|
    ensures PeerSeverity(Affine(xs, k, c), i) == PeerSeverity(xs, i)
  {
    hide Variance, AtLeast, Peers, Affine, Rated;
    AffineAt(xs, k, c);
    var peers := Peers(xs, i);
    PeersLength(xs, i);
    AffineAt(peers, k, c);
    AffinePeers(xs, k, c, i);
    VarianceAffine(peers, k, c);
    AtLeastAffine(xs[i], peers, Z_SCORE_HIGH, k, c, Affine(xs, k, c)[i]);
    AtLeastAffine(xs[i], peers, Z_SCORE_MEDIUM, k, c, Affine(xs, k, c)[i]);
  }

  lemma EstimateScaled(x: real, estimate: real, k: real, kx: real, kEstimate: real)
    requires k > 0.0 && kx == k * x && kEstimate == k * estimate
    ensures EstimateSeverity(kx, kEstimate) == EstimateSeverity(x, estimate)
  {
    hide Magnitude;
    TimesPositive(k, estimate);
    if estimate > 0.0 {
      Deviates(kx, kEstimate);
      Deviates(x, estimate);
      MagnitudeScaled(k, x - estimate, kx - kEstimate);
      CancelBoth(k, Magnitude(x - estimate), 0.5 * estimate, Magnitude(kx - kEstimate), 0.5 * kEstimate);
    }
  }

  lemma TimesPositive(k: real, x: real)
    requires k > 0.0
    ensures k * x > 0.0 <==> x > 0.0
  {
    CancelBoth(k, x, 0.0, k * x, 0.0);
  }

  lemma MagnitudeScaled(k: real, d: real, kd: real)
    requires k > 0.0 && kd == k * d
    ensures Magnitude(kd) == k * Magnitude(d)
  {
    CancelBoth(k, d, 0.0, kd, 0.0);
    assert k * -d == -(k * d);
  }

  lemma Deviates(x: real, estimate: real)
    requires estimate > 0.0
    ensures EstimateSeverity(x, estimate) == if Magnitude(x - estimate) > 0.5 * estimate then Some(MEDIUM) else None
  {
    hide Magnitude;
    var q := Magnitude(x - estimate) / estimate;
    CancelBoth(estimate, q, 0.5, Magnitude(x - estimate), 0.5 * estimate);
  }

  /** Every severity of the detector is unchanged when bids and estimate are counted in another currency. */
  lemma SeverityScales(xs: seq<real>, estimate: real, i: nat, k: real)
    requires i < |xs| && k > 0.0
    ensures |Affine(xs, k, 0.0)| == |xs|
    ensures BidSeverity(Affine(xs, k, 0.0), k * estimate, i) == BidSeverity(xs, estimate, i)
  {
    hide PeerSeverity, EstimateSeverity, Affine;
    AffineAt(xs, k, 0.0);
    assert Affine(xs, k, 0.0)[i] == Rated(xs[i], k, 0.0) == k * xs[i];
    if |xs| >= MIN_BIDS_FOR_ZSCORE {
      PeerSeverityAffine(xs, i, k, 0.0);
    } else {
      EstimateScaled(xs[i], estimate, k, Affine(xs, k, 0.0)[i], k * estimate);
    }
  }

  // Collusion

  lemma UniformScaled(xs: seq<real>, k: real, cv: real)
    requires xs != [] && k > 0.0 && Affine(xs, k, 0.0) != []
    ensures Uniform(Affine(xs, k, 0.0), cv) <==> Uniform(xs, cv)
  {
    hide Affine, Spread, Mean, Square, Uniform;
    var scaled := Affine(xs, k, 0.0);
    AffineAt(xs, k, 0.0);
    AffineMean(xs, k, 0.0);
    AffineSpread(xs, k, 0.0, Mean(xs), Mean(scaled));
    var e, ke := Square(cv * Mean(xs)), Square(cv * Mean(scaled));
    UniformSpread(xs, cv, |xs| as real, e);
    UniformSpread(scaled, cv, |xs| as real, ke);
    SquareOf(k, cv * Mean(xs), cv * Mean(scaled));
    ScaleStrictly(k, |xs| as real, e, Spread(xs, Mean(xs)), ke, Spread(scaled, Mean(scaled)));
  }

  lemma ScaleStrictly(k: real, n: real, e: real, s: real, ke: real, ks: real)
    requires k != 0.0 && ke == k * (k * e) && ks == k * (k * s)
    ensures ks < n * ke <==> s < n * e
  {
    hide Square;
    SquareSign(k);
    SquareOut(k, n, e);
    SquareOut(k, 1.0, s);
    CancelBoth(Square(k), n * e, s, n * ke, ks);
  }

  lemma UniformSpread(xs: seq<real>, cv: real, n: real, e: real)
    requires xs != [] && n == |xs| as real && e == Square(cv * Mean(xs))
    ensures Uniform(xs, cv) <==> Spread(xs, Mean(xs)) < n * e
  {
    hide Spread, Mean, Square;
    CancelBoth(n, e, Variance(xs), n * e, Spread(xs, Mean(xs)));
  }

  /** The currency does not change whether bids look uniform. */
  lemma CollusionScales(xs: seq<real>, k: real)
    requires k > 0.0
    ensures CollusionSeverity(Affine(xs, k, 0.0)) == CollusionSeverity(xs)
  {
    AffineAt(xs, k, 0.0);
    hide Affine, Uniform, Mean;
    if |xs| >= COLLUSION_MIN_BIDS {
      AffineMean(xs, k, 0.0);
      CancelBoth(k, Mean(xs), 0.0, Mean(Affine(xs, k, 0.0)), 0.0);
      UniformScaled(xs, k, CV_HIGH);
      UniformScaled(xs, k, CV_MEDIUM);
    }
  }

  function Limit(s: Severity): real {
    match s case MEDIUM => CV_MEDIUM case HIGH => CV_HIGH
  }

  /**
   * A lot reported for uniform prices is uniform: no bid is further from the mean than sqrt(n - 1) times 2% or 5% of
   * it.
   */
  lemma UniformMeansClose(xs: seq<real>, i: nat)
    requires i < |xs| && CollusionSeverity(xs).Some? && Mean(xs) > 0.0
    ensures Square(xs[i] - Mean(xs)) < (|xs| - 1) as real * Square(Limit(CollusionSeverity(xs).value) * Mean(xs))
  {
    hide Square, Spread, Peers, Mean, Related, Uniform;
    var n, peers, cv := |xs| as real, Peers(xs, i), Limit(CollusionSeverity(xs).value);
    PeersLength(xs, i);
    ScoresRelated(xs, i);
    UniformSpread(xs, cv, n, Square(cv * Mean(xs)));
    assert (|xs| - 1) as real == n - 1.0;
    CloseAlgebra(n, Spread(xs, Mean(xs)), Spread(peers, Mean(peers)), Square(xs[i] - Mean(xs)),
      Square(xs[i] - Mean(peers)), Square(cv * Mean(xs)));
  }

  lemma {:induction false} SpreadBelow(xs: seq<real>, m: real, c: real)
    requires xs != [] && forall i | 0 <= i < |xs| :: Square(xs[i] - m) < c
    ensures Spread(xs, m) < |xs| as real * c
  {
    hide Square;
    if |xs| > 1 {
      SpreadBelow(xs[1..], m, c);
      OneMore(|xs| as real, c);
    }
  }

  lemma OneMore(n: real, c: real)
    ensures c + (n - 1.0) * c == n * c
  {}

  /**
   * Conversely, three or more bids that all lie within 2% or 5% of a positive mean are reported, at least as severely.
   */
  lemma CloseMeansUniform(xs: seq<real>, s: Severity)
    requires COLLUSION_MIN_BIDS <= |xs| && Mean(xs) > 0.0
    requires forall i | 0 <= i < |xs| :: Square(xs[i] - Mean(xs)) < Square(Limit(s) * Mean(xs))
    ensures Rank(Some(s)) <= Rank(CollusionSeverity(xs))
  {
    hide Square, Spread, Mean, Uniform;
    SpreadBelow(xs, Mean(xs), Square(Limit(s) * Mean(xs)));
    UniformSpread(xs, Limit(s), |xs| as real, Square(Limit(s) * Mean(xs)));
  }

  lemma CloseAlgebra(n: real, all: real, own: real, e: real, d: real, c: real)
    requires Related(n, all, own, e, d) && all < n * c
    ensures e < (n - 1.0) * c
  {
    assert (n - 1.0) * own >= 0.0;
    CancelBoth(n - 1.0, n * c, all, (n - 1.0) * (n * c), (n - 1.0) * all);
    assert (n - 1.0) * (n * c) == n * ((n - 1.0) * c);
    CancelBoth(n, (n - 1.0) * c, e, n * ((n - 1.0) * c), n * e);
  }

  // The severities in numbers

  lemma SquareNumbers(x: real, k: real, m: real)
    ensures Square(x) == x * x && Square(3.0) == 9.0 && Square(2.0) == 4.0
    ensures Square(k * m) == k * k * (m * m)
  {}

  /** At least three standard deviations from the mean of the other bids, or at least two but not three. */
  lemma PeerSeverityBounds(xs: seq<real>, i: nat)
    requires i < |xs| && 2 <= |xs|
    ensures var peers := xs[..i] + xs[i + 1..];
            var distance, variance := xs[i] - Mean(peers), Variance(peers);
            && (PeerSeverity(xs, i) == Some(HIGH) <==> variance > 0.0 && distance * distance >= 9.0 * variance)
            && (PeerSeverity(xs, i) == Some(MEDIUM) <==>
                 variance > 0.0 && 4.0 * variance <= distance * distance && distance * distance < 9.0 * variance)
  {
    hide Square, Mean, Variance;
    SquareNumbers(xs[i] - Mean(xs[..i] + xs[i + 1..]), 0.0, 0.0);
  }

  /** From four bids on the other bids decide; up to three, more than half the estimate away from it is MEDIUM. */
  lemma BidSeverityBounds(xs: seq<real>, estimate: real, i: nat)
    requires i < |xs|
    ensures |xs| >= 4 ==> BidSeverity(xs, estimate, i) == PeerSeverity(xs, i)
    ensures |xs| <= 3 ==>
              BidSeverity(xs, estimate, i)
              == if estimate > 0.0 && (2.0 * xs[i] > 3.0 * estimate || 2.0 * xs[i] < estimate) then Some(MEDIUM)
                 else None
  {
    hide PeerSeverity;
    if estimate > 0.0 { HalfAway(Magnitude(xs[i] - estimate), estimate, Magnitude(xs[i] - estimate) / estimate); }
  }

  lemma HalfAway(d: real, estimate: real, ratio: real)
    requires estimate > 0.0 && ratio == d / estimate
    ensures ratio > 0.5 <==> 2.0 * d > estimate
  {
    assert estimate * ratio == d;
    Cancel(estimate, ratio, 0.5);
  }

  /** At least three bids whose variance is below (2%)^2 or (5%)^2 of the mean's square, or whose mean is negative. */
  lemma CollusionBounds(xs: seq<real>)
    ensures CollusionSeverity(xs) == Some(HIGH) <==>
              |xs| >= 3 && (Mean(xs) < 0.0 || (Mean(xs) > 0.0 && Variance(xs) < 0.0004 * (Mean(xs) * Mean(xs))))
    ensures CollusionSeverity(xs) == Some(MEDIUM) <==>
              |xs| >= 3 && Mean(xs) > 0.0
              && 0.0004 * (Mean(xs) * Mean(xs)) <= Variance(xs) < 0.0025 * (Mean(xs) * Mean(xs))
  {
    hide Square, Mean, Variance;
    if |xs| >= 3 {
      SquareNumbers(0.0, 0.02, Mean(xs));
      SquareNumbers(0.0, 0.05, Mean(xs));
    }
  }

  // The detectors

  /** The alerts a lot's bids deserve, in the order of the bids. */
  function Alerts(xs: seq<real>, estimate: real, upTo: nat): seq<Alert>
    requires upTo <= |xs|
  {
    if upTo == 0 then []
    else Alerts(xs, estimate, upTo - 1) +
         match BidSeverity(xs, estimate, upTo - 1) case None => [] case Some(s) => [Alert(upTo - 1, s)]
  }

  /** A bid is alerted exactly once, with its severity, or not at all. */
  lemma {:induction false} AlertsExact(xs: seq<real>, estimate: real, upTo: nat)
    requires upTo <= |xs|
    ensures forall a :: a in Alerts(xs, estimate, upTo) <==>
            a.bid < upTo && BidSeverity(xs, estimate, a.bid) == Some(a.severity)
    ensures forall j, k | 0 <= j < k < |Alerts(xs, estimate, upTo)| ::
            Alerts(xs, estimate, upTo)[j].bid < Alerts(xs, estimate, upTo)[k].bid
  {
    hide BidSeverity;
    if upTo > 0 {
      AlertsExact(xs, estimate, upTo - 1);
      var before := Alerts(xs, estimate, upTo - 1);
      forall j | 0 <= j < |before| ensures before[j].bid < upTo - 1 { assert before[j] in before; }
    }
  }

  method EvaluatePrices(amounts: seq<real>, estimate: real) returns (alerts: seq<Alert>)
    ensures forall a :: a in alerts <==> a.bid < |amounts| && BidSeverity(amounts, estimate, a.bid) == Some(a.severity)
    ensures forall j, k | 0 <= j < k < |alerts| :: alerts[j].bid < alerts[k].bid
  {
    hide Times, Mean, Variance, Square, Magnitude;
    alerts := [];
    var n := |amounts|;
    for index := 0 to n
      invariant alerts == Alerts(amounts, estimate, index)
    {
      var amount, peers := amounts[index], Peers(amounts, index);
      var result: Option<Severity> := None;
      if n >= MIN_BIDS_FOR_ZSCORE {
        var variance := Variance(peers);
        if variance > 0.0 {
          var distance := Square(amount - Mean(peers));
          if distance >= Square(Z_SCORE_HIGH) * variance {
            result := Some(HIGH);
          } else if distance >= Square(Z_SCORE_MEDIUM) * variance {
            result := Some(MEDIUM);
          }
        }
      }
      if result == None && n < MIN_BIDS_FOR_ZSCORE {
        var deviation := if estimate > 0.0 then Magnitude(amount - estimate) / estimate else 0.0;
        if deviation > ESTIMATE_DEVIATION_THRESHOLD {
          result := Some(MEDIUM);
        }
      }
      if result.Some? {
        alerts := alerts + [Alert(index, result.value)];
      }
    }
    AlertsExact(amounts, estimate, |amounts|);
  }
}
