/**
 * The two-pass builder of connection lines between cities (Earth.jsx). The
 * first pass draws every key connection; the second gives each city below the
 * cap at most one random partner among the eligible cities. A per-city counter
 * map caps every city at `MaxConnectionsPerCity` lines.
 *
 * This module states the builder as functions of the random draws; the
 * imperative builder in module Globe is proved equal to them.
 */
module Connections {
  import opened Wrappers
  import opened Oracles
  import opened CityTable

  const MaxConnectionsPerCity: nat := 4

  /** The three colours a connection line is drawn in. */
  const LinePalette: seq<string> := ["#38bdf8", "#818cf8", "#60a5fa"]

  /** One connection line, as pushed onto the globe's list of lines. */
  datatype Line = Line(from: nat, to: nat, color: string)

  /** The builder's state: the lines drawn so far and the per-city counters. */
  datatype Wiring = Wiring(lines: seq<Line>, connections: map<nat, nat>)

  /**
   * The random draws the builder consumes: one colour draw per key pair, and
   * per city one partner draw and one colour draw (used only when that city
   * gains a random line).
   */
  datatype Draws = Draws(keyColors: seq<real>, partners: seq<real>, partnerColors: seq<real>)

  predicate ValidDraws(d: Draws) {
    && |d.keyColors| == |KeyConnections|
    && |d.partners| == CityCount
    && |d.partnerColors| == CityCount
    && AllUnitDraws(d.keyColors) && AllUnitDraws(d.partners) && AllUnitDraws(d.partnerColors)
  }

  /** `connections.get(i) || 0`: an absent city counts 0. */
  function CountOf(connections: map<nat, nat>, i: nat): nat {
    if i in connections then connections[i] else 0
  }

  /** `colors[Math.floor(Math.random() * 3)]` */
  function LineColor(r: real): (c: string)
    requires IsUnitDraw(r)
    ensures c in LinePalette
  {
    LinePalette[RandomIndex(r, |LinePalette|)]
  }

  /** Push a line from i to j and add 1 to the counter of each end. */
  function AddLine(w: Wiring, i: nat, j: nat, color: string): (w': Wiring)
    ensures |w'.lines| == |w.lines| + 1 && w'.lines[..|w.lines|] == w.lines
    ensures w'.lines[|w.lines|] == Line(i, j, color)
    ensures forall c ::
              CountOf(w'.connections, c) ==
              CountOf(w.connections, c) + (if c == i then 1 else 0) + (if c == j then 1 else 0)
  {
    var once := w.connections[i := CountOf(w.connections, i) + 1];
    Wiring(w.lines + [Line(i, j, color)], once[j := CountOf(once, j) + 1])
  }

  /** Whether a pair joins i and j, in either orientation. */
  predicate Links(pair: (nat, nat), i: nat, j: nat) {
    (pair.0 == i && pair.1 == j) || (pair.0 == j && pair.1 == i)
  }

  /** `pairs.some(([x, y]) => (x === i && y === j) || (x === j && y === i))` */
  predicate SomeLinks(pairs: seq<(nat, nat)>, i: nat, j: nat) {
    if pairs == [] then false
    else Links(pairs[0], i, j) || SomeLinks(pairs[1..], i, j)
  }

  /** The scan answers true exactly when some listed pair joins i and j. */
  lemma {:induction false} SomeLinksIffListed(pairs: seq<(nat, nat)>, i: nat, j: nat)
    ensures SomeLinks(pairs, i, j) <==> exists k :: 0 <= k < |pairs| && Links(pairs[k], i, j)
  {
    if pairs != [] {
      SomeLinksIffListed(pairs[1..], i, j);
      assert forall k :: 1 <= k < |pairs| ==> pairs[k] == pairs[1..][k - 1];
      if SomeLinks(pairs[1..], i, j) {
        var k :| 0 <= k < |pairs[1..]| && Links(pairs[1..][k], i, j);
        assert Links(pairs[k + 1], i, j);
      }
    }
  }

  /** Whether city j may become the random partner of city i. */
  predicate Eligible(connections: map<nat, nat>, i: nat, j: nat) {
    && i != j
    && CountOf(connections, j) < MaxConnectionsPerCity
    && !SomeLinks(KeyConnections, i, j)
  }

  /** The eligible partners of city i among cities 0 .. n-1, in index order. */
  function EligibleBelow(connections: map<nat, nat>, i: nat, n: nat): seq<nat> {
    if n == 0 then []
    else
      var below := EligibleBelow(connections, i, n - 1);
      if Eligible(connections, i, n - 1) then below + [n - 1] else below
  }

  /** The candidates below n are exactly the eligible cities below n, each
      once and in increasing order. */
  lemma {:induction false} EligibleBelowSpec(connections: map<nat, nat>, i: nat, n: nat)
    ensures forall k :: 0 <= k < |EligibleBelow(connections, i, n)| ==>
      EligibleBelow(connections, i, n)[k] < n && Eligible(connections, i, EligibleBelow(connections, i, n)[k])
    ensures forall j :: 0 <= j < n && Eligible(connections, i, j) ==> j in EligibleBelow(connections, i, n)
    ensures forall a, b :: 0 <= a < b < |EligibleBelow(connections, i, n)| ==>
      EligibleBelow(connections, i, n)[a] < EligibleBelow(connections, i, n)[b]
  {
    if n > 0 {
      EligibleBelowSpec(connections, i, n - 1);
    }
  }

  /** `potentialConnections` for city i: every eligible city of the table. */
  function Candidates(connections: map<nat, nat>, i: nat): seq<nat> {
    EligibleBelow(connections, i, CityCount)
  }

  /** The random partner city i gains, if any. */
  function Partner(connections: map<nat, nat>, i: nat, pick: real): (j: Option<nat>)
    requires IsUnitDraw(pick)
    ensures j.None? <==>
      CountOf(connections, i) >= MaxConnectionsPerCity || Candidates(connections, i) == []
    ensures j.Some? ==> j.value in Candidates(connections, i)
    ensures j.Some? ==>
      && CountOf(connections, i) < MaxConnectionsPerCity
      && CountOf(connections, j.value) < MaxConnectionsPerCity
      && j.value < CityCount && j.value != i
      && !SomeLinks(KeyConnections, i, j.value)
  {
    if CountOf(connections, i) >= MaxConnectionsPerCity then None
    else
      var cands := Candidates(connections, i);
      EligibleBelowSpec(connections, i, CityCount);
      if |cands| > 0 then
        var k := RandomIndex(pick, |cands|);
        assert cands[k] < CityCount && Eligible(connections, i, cands[k]);
        Some(cands[k])
      else None
  }

  /** The second pass's step for city i. */
  function RandomStep(w: Wiring, i: nat, pick: real, colorDraw: real): Wiring
    requires IsUnitDraw(pick) && IsUnitDraw(colorDraw)
  {
    match Partner(w.connections, i, pick)
    case None => w
    case Some(j) => AddLine(w, i, j, LineColor(colorDraw))
  }

  /** One step of the second pass, spelled out as the source performs it:
      skip a capped city; otherwise pick a partner from the candidates, push
      the line and bump both counters. */
  lemma RandomStepUnfolded(w: Wiring, i: nat, pick: real, colorDraw: real)
    requires IsUnitDraw(pick) && IsUnitDraw(colorDraw)
    ensures CountOf(w.connections, i) >= MaxConnectionsPerCity ==> RandomStep(w, i, pick, colorDraw) == w
    ensures CountOf(w.connections, i) < MaxConnectionsPerCity && Candidates(w.connections, i) == [] ==>
      RandomStep(w, i, pick, colorDraw) == w
    ensures CountOf(w.connections, i) < MaxConnectionsPerCity && Candidates(w.connections, i) != [] ==>
      var cands := Candidates(w.connections, i);
      var j := cands[RandomIndex(pick, |cands|)];
      var once := w.connections[i := CountOf(w.connections, i) + 1];
      RandomStep(w, i, pick, colorDraw) ==
        Wiring(w.lines + [Line(i, j, LineColor(colorDraw))], once[j := CountOf(once, j) + 1])
  {
  }

  /** The first pass over the first n key pairs, from an empty counter map. */
  function KeyPhase(n: nat, d: Draws): Wiring
    requires n <= |KeyConnections| && ValidDraws(d)
  {
    if n == 0 then Wiring([], map[])
    else
      var (i, j) := KeyConnections[n - 1];
      AddLine(KeyPhase(n - 1, d), i, j, LineColor(d.keyColors[n - 1]))
  }

  /** One step of the first pass, spelled out as the source performs it:
      push the key line, then bump the counter of each end. */
  lemma KeyStepUnfolded(k: nat, d: Draws)
    requires k < |KeyConnections| && ValidDraws(d)
    ensures var w := KeyPhase(k, d);
      var i, j := KeyConnections[k].0, KeyConnections[k].1;
      var once := w.connections[i := CountOf(w.connections, i) + 1];
      KeyPhase(k + 1, d) ==
        Wiring(w.lines + [Line(i, j, LineColor(d.keyColors[k]))], once[j := CountOf(once, j) + 1])
  {
  }

  /** The second pass over cities 0 .. n-1, starting from w. */
  function RandomPhase(w: Wiring, n: nat, d: Draws): Wiring
    requires n <= CityCount && ValidDraws(d)
  {
    if n == 0 then w
    else RandomStep(RandomPhase(w, n - 1, d), n - 1, d.partners[n - 1], d.partnerColors[n - 1])
  }

  /** Both passes: the lines and counters the builder ends with. */
  function Wire(d: Draws): Wiring
    requires ValidDraws(d)
  {
    RandomPhase(KeyPhase(|KeyConnections|, d), CityCount, d)
  }

  // ---------------------------------------------------------------------
  // The counters agree with the lines

  /** How many ends of line l sit at city c. */
  function Ends(l: Line, c: nat): nat {
    (if l.from == c then 1 else 0) + (if l.to == c then 1 else 0)
  }

  /** How many line ends sit at city c: the number of lines touching c. */
  function Degree(lines: seq<Line>, c: nat): nat {
    if lines == [] then 0
    else Degree(lines[..|lines| - 1], c) + Ends(lines[|lines| - 1], c)
  }

  /** Every counter holds the number of lines ending at its city. */
  ghost predicate Counted(w: Wiring) {
    forall c :: CountOf(w.connections, c) == Degree(w.lines, c)
  }

  /** The state the second pass keeps: counters agree with the lines, no
      city is above the cap, and every line joins two different cities. */
  ghost predicate WellWired(w: Wiring) {
    && Counted(w)
    && (forall c :: CountOf(w.connections, c) <= MaxConnectionsPerCity)
    && (forall k :: 0 <= k < |w.lines| ==>
          w.lines[k].from < CityCount && w.lines[k].to < CityCount && w.lines[k].from != w.lines[k].to)
  }

  lemma AddLineKeepsCounted(w: Wiring, i: nat, j: nat, color: string)
    requires Counted(w)
    ensures Counted(AddLine(w, i, j, color))
  {
    var w' := AddLine(w, i, j, color);
    forall c ensures CountOf(w'.connections, c) == Degree(w'.lines, c) {
      assert w'.lines[..|w'.lines| - 1] == w.lines;
    }
  }

  // ---------------------------------------------------------------------
  // The first pass

  /** The number of the first n key pairs that end at city c. */
  function KeyDegree(n: nat, c: nat): nat
    requires n <= |KeyConnections|
  {
    if n == 0 then 0
    else
      KeyDegree(n - 1, c) +
      (if KeyConnections[n - 1].0 == c then 1 else 0) + (if KeyConnections[n - 1].1 == c then 1 else 0)
  }

  /** The first pass draws exactly one line per key pair, in order, and
      raises the counter of both ends of each by one. */
  lemma {:induction false} KeyPhaseDrawsKeyPairs(n: nat, d: Draws)
    requires n <= |KeyConnections| && ValidDraws(d)
    ensures |KeyPhase(n, d).lines| == n
    ensures forall k :: 0 <= k < n ==>
      KeyPhase(n, d).lines[k] == Line(KeyConnections[k].0, KeyConnections[k].1, LineColor(d.keyColors[k]))
    ensures forall c :: CountOf(KeyPhase(n, d).connections, c) == KeyDegree(n, c)
    ensures Counted(KeyPhase(n, d))
  {
    if n > 0 {
      KeyPhaseDrawsKeyPairs(n - 1, d);
      var (i, j) := KeyConnections[n - 1];
      var before, after := KeyPhase(n - 1, d), KeyPhase(n, d);
      AddLineKeepsCounted(before, i, j, LineColor(d.keyColors[n - 1]));
      forall k | 0 <= k < n - 1 ensures after.lines[k] == before.lines[k] {
        assert after.lines[k] == after.lines[..n - 1][k];
      }
    }
  }

  /** The key pairs give city 0 three lines and every city at most three. */
  lemma KeyDegreesBelowCap()
    ensures forall c: nat :: KeyDegree(11, c) <= 3
    ensures KeyDegree(11, 0) == 3
  {
    forall c: nat ensures KeyDegree(11, c) <= 3 {
      assert KeyDegree(1, c) == (if c == 0 || c == 1 then 1 else 0);
      assert KeyDegree(2, c) == KeyDegree(1, c) + (if c == 0 || c == 6 then 1 else 0);
      assert KeyDegree(3, c) == KeyDegree(2, c) + (if c == 1 || c == 8 then 1 else 0);
      assert KeyDegree(4, c) == KeyDegree(3, c) + (if c == 2 || c == 11 then 1 else 0);
      assert KeyDegree(5, c) == KeyDegree(4, c) + (if c == 3 || c == 7 then 1 else 0);
      assert KeyDegree(6, c) == KeyDegree(5, c) + (if c == 4 || c == 10 then 1 else 0);
      assert KeyDegree(7, c) == KeyDegree(6, c) + (if c == 5 || c == 0 then 1 else 0);
      assert KeyDegree(8, c) == KeyDegree(7, c) + (if c == 8 || c == 9 then 1 else 0);
      assert KeyDegree(9, c) == KeyDegree(8, c) + (if c == 11 || c == 12 then 1 else 0);
      assert KeyDegree(10, c) == KeyDegree(9, c) + (if c == 12 || c == 13 then 1 else 0);
      assert KeyDegree(11, c) == KeyDegree(10, c) + (if c == 13 || c == 4 then 1 else 0);
    }
  }

  /** After the first pass no city has reached the cap: the largest count
      is 3, for city 0 (New York). */
  lemma KeyPhaseBelowCap(d: Draws)
    requires ValidDraws(d)
    ensures forall c :: CountOf(KeyPhase(|KeyConnections|, d).connections, c) <= 3
    ensures CountOf(KeyPhase(|KeyConnections|, d).connections, 0) == 3
  {
    KeyPhaseDrawsKeyPairs(|KeyConnections|, d);
    KeyDegreesBelowCap();
  }

  /** The first pass ends in a state the second pass can start from. */
  lemma KeyPhaseWellWired(d: Draws)
    requires ValidDraws(d)
    ensures WellWired(KeyPhase(|KeyConnections|, d))
  {
    KeyPhaseDrawsKeyPairs(|KeyConnections|, d);
    KeyPhaseBelowCap(d);
    KeyConnectionsValid();
  }

  // ---------------------------------------------------------------------
  // The second pass

  /** One step of the second pass adds at most one line, from city i to an
      eligible partner, and keeps the wiring well formed. */
  lemma RandomStepKeepsWellWired(w: Wiring, i: nat, pick: real, colorDraw: real)
    requires WellWired(w) && i < CityCount && IsUnitDraw(pick) && IsUnitDraw(colorDraw)
    ensures var w' := RandomStep(w, i, pick, colorDraw);
      && WellWired(w')
      && (Partner(w.connections, i, pick).None? ==> w' == w)
      && (Partner(w.connections, i, pick).Some? ==>
            w'.lines == w.lines + [Line(i, Partner(w.connections, i, pick).value, LineColor(colorDraw))])
  {
    match Partner(w.connections, i, pick)
    case None =>
    case Some(j) =>
      AddLineKeepsCounted(w, i, j, LineColor(colorDraw));
  }

  /** The second pass over cities 0 .. n-1 keeps every line drawn before it,
      keeps every city within the cap and adds at most one line per city. */
  lemma {:induction false} RandomPhaseKeepsWellWired(w: Wiring, n: nat, d: Draws)
    requires WellWired(w) && n <= CityCount && ValidDraws(d)
    ensures WellWired(RandomPhase(w, n, d))
    ensures |w.lines| <= |RandomPhase(w, n, d).lines| <= |w.lines| + n
    ensures RandomPhase(w, n, d).lines[..|w.lines|] == w.lines
  {
    if n > 0 {
      RandomPhaseKeepsWellWired(w, n - 1, d);
      RandomStepKeepsWellWired(RandomPhase(w, n - 1, d), n - 1, d.partners[n - 1], d.partnerColors[n - 1]);
    }
  }

  /** Each line the second pass over cities 0 .. n-1 adds starts at one of
      those cities, joins no key pair, and the lines come in city order, so
      no city starts two of them. */
  lemma {:induction false} RandomPhaseLinesInCityOrder(w: Wiring, n: nat, d: Draws)
    requires WellWired(w) && n <= CityCount && ValidDraws(d)
    ensures forall k :: |w.lines| <= k < |RandomPhase(w, n, d).lines| ==>
      RandomPhase(w, n, d).lines[k].from < n &&
      !SomeLinks(KeyConnections, RandomPhase(w, n, d).lines[k].from, RandomPhase(w, n, d).lines[k].to)
    ensures forall a, b :: |w.lines| <= a < b < |RandomPhase(w, n, d).lines| ==>
      RandomPhase(w, n, d).lines[a].from < RandomPhase(w, n, d).lines[b].from
  {
    if n > 0 {
      RandomPhaseLinesInCityOrder(w, n - 1, d);
      RandomPhaseKeepsWellWired(w, n - 1, d);
      RandomStepKeepsWellWired(RandomPhase(w, n - 1, d), n - 1, d.partners[n - 1], d.partnerColors[n - 1]);
    }
  }

  // ---------------------------------------------------------------------
  // Both passes

  /** What the builder ends with: the key lines first, in order; then at most
      one random line per city, in city order, none of them a key pair in
      either orientation; no line from a city to itself; every city within
      the cap; every counter equal to the number of lines at its city. */
  lemma WireSpec(d: Draws)
    requires ValidDraws(d)
    ensures var w := Wire(d);
      && |KeyConnections| <= |w.lines| <= |KeyConnections| + CityCount
      && (forall k :: 0 <= k < |KeyConnections| ==>
            w.lines[k].from == KeyConnections[k].0 && w.lines[k].to == KeyConnections[k].1)
      && (forall k :: |KeyConnections| <= k < |w.lines| ==>
            !SomeLinks(KeyConnections, w.lines[k].from, w.lines[k].to))
      && (forall a, b :: |KeyConnections| <= a < b < |w.lines| ==> w.lines[a].from < w.lines[b].from)
      && (forall k :: 0 <= k < |w.lines| ==>
            w.lines[k].from != w.lines[k].to && w.lines[k].from < CityCount && w.lines[k].to < CityCount)
      && (forall c :: CountOf(w.connections, c) <= MaxConnectionsPerCity)
      && (forall c :: CountOf(w.connections, c) == Degree(w.lines, c))
  {
    var w0 := KeyPhase(|KeyConnections|, d);
    KeyPhaseDrawsKeyPairs(|KeyConnections|, d);
    KeyPhaseWellWired(d);
    RandomPhaseKeepsWellWired(w0, CityCount, d);
    RandomPhaseLinesInCityOrder(w0, CityCount, d);
    var w := Wire(d);
    forall k | 0 <= k < |KeyConnections|
      ensures w.lines[k].from == KeyConnections[k].0 && w.lines[k].to == KeyConnections[k].1
    {
      assert w.lines[k] == w.lines[..|w0.lines|][k];
    }
  }

  /** The sum of the counters of cities 0 .. n-1. */
  function CounterSum(connections: map<nat, nat>, n: nat): nat {
    if n == 0 then 0 else CounterSum(connections, n - 1) + CountOf(connections, n - 1)
  }

  /** The sum of the degrees of cities 0 .. n-1. */
  function DegreeSum(lines: seq<Line>, n: nat): nat {
    if n == 0 then 0 else DegreeSum(lines, n - 1) + Degree(lines, n - 1)
  }

  lemma {:induction false} DegreeSumAppend(lines: seq<Line>, l: Line, n: nat)
    ensures DegreeSum(lines + [l], n) ==
      DegreeSum(lines, n) + (if l.from < n then 1 else 0) + (if l.to < n then 1 else 0)
  {
    if n > 0 {
      DegreeSumAppend(lines, l, n - 1);
      assert (lines + [l])[..|lines|] == lines;
    }
  }

  lemma {:induction false} DegreeSumIsTwiceLines(lines: seq<Line>, n: nat)
    requires forall k :: 0 <= k < |lines| ==> lines[k].from < n && lines[k].to < n
    ensures DegreeSum(lines, n) == 2 * |lines|
  {
    if lines == [] {
      DegreeSumOfNoLines(n);
    } else {
      var init := lines[..|lines| - 1];
      DegreeSumIsTwiceLines(init, n);
      DegreeSumAppend(init, lines[|lines| - 1], n);
      assert init + [lines[|lines| - 1]] == lines;
    }
  }

  lemma {:induction false} DegreeSumOfNoLines(n: nat)
    ensures DegreeSum([], n) == 0
  {
    if n > 0 { DegreeSumOfNoLines(n - 1); }
  }

  lemma {:induction false} CounterSumIsDegreeSum(w: Wiring, n: nat)
    requires Counted(w)
    ensures CounterSum(w.connections, n) == DegreeSum(w.lines, n)
  {
    if n > 0 { CounterSumIsDegreeSum(w, n - 1); }
  }

  /** The counters of the 14 cities add up to twice the number of lines:
      every line is counted once at each of its two ends. */
  lemma WireHandshake(d: Draws)
    requires ValidDraws(d)
    ensures CounterSum(Wire(d).connections, CityCount) == 2 * |Wire(d).lines|
  {
    WireSpec(d);
    CounterSumIsDegreeSum(Wire(d), CityCount);
    DegreeSumIsTwiceLines(Wire(d).lines, CityCount);
  }

  // ---------------------------------------------------------------------
  // A pair the second pass draws twice

  /** Candidates below m are the first candidates below n. */
  lemma {:induction false} EligibleBelowPrefix(connections: map<nat, nat>, i: nat, m: nat, n: nat)
    requires m <= n
    ensures |EligibleBelow(connections, i, m)| <= |EligibleBelow(connections, i, n)|
    ensures EligibleBelow(connections, i, n)[..|EligibleBelow(connections, i, m)|] == EligibleBelow(connections, i, m)
    decreases n
  {
    if m < n {
      EligibleBelowPrefix(connections, i, m, n - 1);
    }
  }

  /** The second pass never takes back a line: the lines after the first m
      cities start with the lines after fewer cities. */
  lemma {:induction false} RandomPhasePrefix(w: Wiring, m: nat, n: nat, d: Draws)
    requires m <= n <= CityCount && ValidDraws(d)
    ensures |RandomPhase(w, m, d).lines| <= |RandomPhase(w, n, d).lines|
    ensures RandomPhase(w, n, d).lines[..|RandomPhase(w, m, d).lines|] == RandomPhase(w, m, d).lines
    decreases n
  {
    if m < n {
      RandomPhasePrefix(w, m, n - 1, d);
      var before := RandomPhase(w, n - 1, d);
      var k := |RandomPhase(w, m, d).lines|;
      assert RandomPhase(w, n, d) == RandomStep(before, n - 1, d.partners[n - 1], d.partnerColors[n - 1]);
      assert RandomPhase(w, n, d).lines[..|before.lines|] == before.lines;
      assert RandomPhase(w, n, d).lines[..k] == RandomPhase(w, n, d).lines[..|before.lines|][..k];
    }
  }

  /** Every draw 0. */
  function ZeroDraws(): (d: Draws)
    ensures ValidDraws(d)
  {
    Draws(seq(|KeyConnections|, _ => 0.0), seq(CityCount, _ => 0.0), seq(CityCount, _ => 0.0))
  }

  /** With no eligible city below n, the list of eligible partners below
      n is empty. */
  lemma {:induction false} NoneEligibleBelow(connections: map<nat, nat>, i: nat, n: nat)
    requires forall k :: 0 <= k < n ==> !Eligible(connections, i, k)
    ensures EligibleBelow(connections, i, n) == []
    decreases n
  {
    if n > 0 {
      NoneEligibleBelow(connections, i, n - 1);
    }
  }

  /** A city below the cap whose first eligible partner is j links to j
      when its draws are 0. */
  lemma ZeroDrawPicksFirst(w: Wiring, i: nat, j: nat)
    requires i < CityCount && CountOf(w.connections, i) < MaxConnectionsPerCity
    requires j < CityCount && Eligible(w.connections, i, j)
    requires forall k :: 0 <= k < j ==> !Eligible(w.connections, i, k)
    ensures RandomStep(w, i, 0.0, 0.0) == AddLine(w, i, j, LineColor(0.0))
  {
    var cands := Candidates(w.connections, i);
    NoneEligibleBelow(w.connections, i, j);
    EligibleBelowPrefix(w.connections, i, j + 1, CityCount);
    assert cands[..1] == [j];
    assert RandomIndex(0.0, |cands|) == 0;
  }

  /** Cities i and j form no key pair, in either orientation. */
  lemma NotKeyPair(i: nat, j: nat)
    requires forall k :: 0 <= k < |KeyConnections| ==> !Links(KeyConnections[k], i, j)
    ensures !SomeLinks(KeyConnections, i, j)
  {
    SomeLinksIffListed(KeyConnections, i, j);
  }

  /** City 0, at 3 lines, skips itself and its key partner 1 and links
      to city 2. */
  lemma ZeroDrawCityZero(w: Wiring)
    requires CountOf(w.connections, 0) == 3 && CountOf(w.connections, 2) < MaxConnectionsPerCity
    ensures RandomStep(w, 0, 0.0, 0.0) == AddLine(w, 0, 2, LineColor(0.0))
  {
    assert SomeLinks(KeyConnections, 0, 1);
    NotKeyPair(0, 2);
    ZeroDrawPicksFirst(w, 0, 2);
  }

  /** City 1, below the cap, skips a full city 0 and itself and links to
      city 2. */
  lemma ZeroDrawCityOne(w: Wiring)
    requires CountOf(w.connections, 0) == 4 && CountOf(w.connections, 1) < MaxConnectionsPerCity
    requires CountOf(w.connections, 2) < MaxConnectionsPerCity
    ensures RandomStep(w, 1, 0.0, 0.0) == AddLine(w, 1, 2, LineColor(0.0))
  {
    NotKeyPair(1, 2);
    ZeroDrawPicksFirst(w, 1, 2);
  }

  /** City 2, below the cap, skips a full city 0 and links back to city 1. */
  lemma ZeroDrawCityTwo(w: Wiring)
    requires CountOf(w.connections, 0) == 4 && CountOf(w.connections, 1) < MaxConnectionsPerCity
    requires CountOf(w.connections, 2) < MaxConnectionsPerCity
    ensures RandomStep(w, 2, 0.0, 0.0) == AddLine(w, 2, 1, LineColor(0.0))
  {
    NotKeyPair(2, 1);
    ZeroDrawPicksFirst(w, 2, 1);
  }

  /** From counters 3, 2 and 1 at cities 0, 1 and 2, zero draws link 0 to 2,
      then 1 to 2, then 2 back to 1. */
  lemma ZeroDrawsLinkOneAndTwoTwice(w: Wiring)
    requires CountOf(w.connections, 0) == 3 && CountOf(w.connections, 1) == 2 && CountOf(w.connections, 2) == 1
    ensures RandomStep(RandomStep(RandomStep(w, 0, 0.0, 0.0), 1, 0.0, 0.0), 2, 0.0, 0.0).lines ==
      w.lines + [Line(0, 2, LineColor(0.0)), Line(1, 2, LineColor(0.0)), Line(2, 1, LineColor(0.0))]
  {
    ZeroDrawCityZero(w);
    var w1 := RandomStep(w, 0, 0.0, 0.0);
    ZeroDrawCityOne(w1);
    var w2 := RandomStep(w1, 1, 0.0, 0.0);
    ZeroDrawCityTwo(w2);
  }

  /** The first three steps of the second pass under zero draws. */
  lemma ZeroDrawsFirstThreeSteps(w: Wiring)
    ensures RandomPhase(w, 3, ZeroDraws()) ==
      RandomStep(RandomStep(RandomStep(w, 0, 0.0, 0.0), 1, 0.0, 0.0), 2, 0.0, 0.0)
  {
    var d := ZeroDraws();
    assert d.partners[0] == d.partners[1] == d.partners[2] == 0.0;
    assert d.partnerColors[0] == d.partnerColors[1] == d.partnerColors[2] == 0.0;
    assert RandomPhase(w, 1, d) == RandomStep(w, 0, 0.0, 0.0);
    assert RandomPhase(w, 2, d) == RandomStep(RandomPhase(w, 1, d), 1, 0.0, 0.0);
  }

  /** After the first pass cities 0, 1 and 2 hold 3, 2 and 1 lines. */
  lemma KeyCountsOfFirstCities(d: Draws)
    requires ValidDraws(d)
    ensures CountOf(KeyPhase(|KeyConnections|, d).connections, 0) == 3
    ensures CountOf(KeyPhase(|KeyConnections|, d).connections, 1) == 2
    ensures CountOf(KeyPhase(|KeyConnections|, d).connections, 2) == 1
    ensures |KeyPhase(|KeyConnections|, d).lines| == 11
  {
    KeyPhaseDrawsKeyPairs(|KeyConnections|, d);
    assert KeyDegree(11, 0) == 3 && KeyDegree(11, 1) == 2 && KeyDegree(11, 2) == 1;
  }

  /** From 11 lines and counters 3, 2 and 1 at cities 0, 1 and 2, the
      second pass under zero draws puts lines 1-2 and 2-1 at places 12 and
      13. */
  lemma ZeroDrawsRepeatAfterKeys(w0: Wiring)
    requires |w0.lines| == 11
    requires CountOf(w0.connections, 0) == 3 && CountOf(w0.connections, 1) == 2 && CountOf(w0.connections, 2) == 1
    ensures |RandomPhase(w0, CityCount, ZeroDraws()).lines| >= 14
    ensures RandomPhase(w0, CityCount, ZeroDraws()).lines[12] == Line(1, 2, LineColor(0.0))
    ensures RandomPhase(w0, CityCount, ZeroDraws()).lines[13] == Line(2, 1, LineColor(0.0))
  {
    var d := ZeroDraws();
    ZeroDrawsLinkOneAndTwoTwice(w0);
    ZeroDrawsFirstThreeSteps(w0);
    var w3, w := RandomPhase(w0, 3, d), RandomPhase(w0, CityCount, d);
    assert w3.lines[12] == Line(1, 2, LineColor(0.0)) && w3.lines[13] == Line(2, 1, LineColor(0.0));
    RandomPhasePrefix(w0, 3, CityCount, d);
    assert w.lines[12] == w.lines[..|w3.lines|][12];
    assert w.lines[13] == w.lines[..|w3.lines|][13];
  }

  /** The second pass can draw the same pair twice, once from each end:
      with every draw 0, city 1 picks city 2 and then city 2 picks city 1,
      since only key pairs are ruled out. */
  lemma RandomPassCanRepeatAPair()
    ensures |Wire(ZeroDraws()).lines| >= 14
    ensures Wire(ZeroDraws()).lines[12].from == 1 && Wire(ZeroDraws()).lines[12].to == 2
    ensures Wire(ZeroDraws()).lines[13].from == 2 && Wire(ZeroDraws()).lines[13].to == 1
  {
    KeyCountsOfFirstCities(ZeroDraws());
    ZeroDrawsRepeatAfterKeys(KeyPhase(|KeyConnections|, ZeroDraws()));
  }
}
