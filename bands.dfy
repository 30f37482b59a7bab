/**
 * The five score bands shared by every classifier of the application.
 *
 * The source repeats the thresholds 580, 670, 740 and 800 in a dozen
 * if-chains and ternaries. Here a band is identified by its rank: the
 * number of thresholds that do not exceed the score. Every classifier of
 * the other modules is proved equal to a table indexed by this rank, which
 * makes them agree with each other band by band.
 */
module Bands {

  /** The lower bounds of Fair, Good, Very Good and Excellent. */
  const THRESHOLDS: seq<int> := [580, 670, 740, 800]

  /** Lowest and highest score of the FICO range shown everywhere. */
  const MIN_SCORE: int := 300
  const MAX_SCORE: int := 850

  /** Band labels, indexed by rank. */
  const BAND_NAMES: seq<string> := ["Poor", "Fair", "Good", "Very Good", "Excellent"]

  /** How many of `ts` are at most `s`. */
  function CountAtMost(ts: seq<int>, s: int): (n: nat)
    ensures n <= |ts|
  {
    if ts == [] then 0
    else (if ts[0] <= s then 1 else 0) + CountAtMost(ts[1..], s)
  }

  /** The band rank of a score: 0 is Poor, 4 is Excellent. */
  function Rank(s: int): (r: nat)
    ensures r < |BAND_NAMES|
  {
    CountAtMost(THRESHOLDS, s)
  }

  /** The label of a score's band. */
  function BandName(s: int): (name: string)
    ensures name in BAND_NAMES
  {
    BAND_NAMES[Rank(s)]
  }

  /** Rank is exactly the interval test that the if-chains of the source perform. */
  lemma RankIntervals(s: int)
    ensures Rank(s) == 0 <==> s < 580
    ensures Rank(s) == 1 <==> 580 <= s < 670
    ensures Rank(s) == 2 <==> 670 <= s < 740
    ensures Rank(s) == 3 <==> 740 <= s < 800
    ensures Rank(s) == 4 <==> 800 <= s
  {
    var t := THRESHOLDS;
    assert t[1..] == [670, 740, 800] && t[1..][1..] == [740, 800];
    assert t[1..][1..][1..] == [800] && t[1..][1..][1..][1..] == [];
    var c3 := CountAtMost(t[1..][1..][1..], s);
    assert c3 == (if 800 <= s then 1 else 0);
    var c2 := CountAtMost(t[1..][1..], s);
    assert c2 == (if 740 <= s then 1 else 0) + c3;
    var c1 := CountAtMost(t[1..], s);
    assert c1 == (if 670 <= s then 1 else 0) + c2;
    assert Rank(s) == (if 580 <= s then 1 else 0) + c1;
  }

  /** Counting thresholds is monotone in the score. */
  lemma {:induction false} CountAtMostMonotone(ts: seq<int>, s: int, t: int)
    requires s <= t
    ensures CountAtMost(ts, s) <= CountAtMost(ts, t)
  {
    if ts != [] {
      CountAtMostMonotone(ts[1..], s, t);
    }
  }

  /** A higher score never falls in a lower band. */
  lemma RankMonotone(s: int, t: int)
    requires s <= t
    ensures Rank(s) <= Rank(t)
  {
    CountAtMostMonotone(THRESHOLDS, s, t);
  }

  /** The bands of the FICO range: lowest score is Poor, highest is Excellent. */
  lemma RankEndpoints()
    ensures Rank(MIN_SCORE) == 0 && Rank(MAX_SCORE) == 4
  {
    RankIntervals(MIN_SCORE);
    RankIntervals(MAX_SCORE);
  }
}
