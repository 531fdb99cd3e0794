/**
 * The Globe component of Earth.jsx: the connection builder as it runs in the
 * scene set-up effect, the UV buffer of an animated line, and the pointer-move
 * and click handlers. Ray casting is left to the caller: a handler receives
 * the city indices of the hit areas the ray crossed, nearest first.
 */
module Globe {
  import opened Wrappers
  import opened Oracles
  import opened CityTable
  import opened Connections

  /** The indices the ray caster can report: those of the cities' hit areas. */
  predicate ValidHits(hits: seq<nat>) {
    forall k :: 0 <= k < |hits| ==> hits[k] < |Cities|
  }

  /** The city index of the nearest hit, if the ray crossed any hit area. */
  function FirstHit(hits: seq<nat>): Option<nat> {
    if |hits| > 0 then Some(hits[0]) else None
  }

  /** The inner `cities.forEach((b, j) => ...)` of the second pass: the
      eligible partners of city i, in index order. */
  method CollectCandidates(connections: map<nat, nat>, i: nat) returns (potential: seq<nat>)
    ensures potential == Candidates(connections, i)
  {
    potential := [];
    for j := 0 to CityCount
      invariant potential == EligibleBelow(connections, i, j)
    {
      if i == j { continue; }
      if CountOf(connections, j) >= MaxConnectionsPerCity { continue; }
      if SomeLinks(KeyConnections, i, j) { continue; }
      potential := potential + [j];
    }
  }

  /** The U coordinate of point i of an n-point line: 0 at the first point
      and 1 at the last. */
  function LineU(n: nat, i: nat): real
    requires n != 1
  {
    i as real / (n - 1) as real
  }

  /** U runs from 0 at the first point to 1 at the last, strictly
      increasing along the line. */
  lemma LineURunsFromZeroToOne(n: nat)
    requires n >= 2
    ensures LineU(n, 0) == 0.0 && LineU(n, n - 1) == 1.0
    ensures forall i :: 0 <= i < n ==> 0.0 <= LineU(n, i) <= 1.0
    ensures forall i, j :: 0 <= i < j < n ==> LineU(n, i) < LineU(n, j)
  {
    var m := (n - 1) as real;
    forall i | 0 <= i < n ensures 0.0 <= LineU(n, i) <= 1.0 {
      DivisionIsMonotone(0.0, i as real, m);
      DivisionIsMonotone(i as real, m, m);
    }
    forall i, j | 0 <= i < j < n ensures LineU(n, i) < LineU(n, j) {
      DivisionIsMonotone(i as real, j as real, m);
    }
  }

  /** The `createAnimatedLine` loop filling a fresh buffer of UVs, one point
      at a time. */
  method FillLineUVs(pointCount: nat) returns (uvs: array<real>)
    requires pointCount != 1
    ensures fresh(uvs) && uvs.Length == 2 * pointCount
    ensures forall i :: 0 <= i < pointCount ==> uvs[2 * i] == LineU(pointCount, i) && uvs[2 * i + 1] == 0.0
  {
    uvs := new real[pointCount * 2](_ => 0.0);
    for i := 0 to pointCount
      invariant forall j :: 0 <= j < i ==> uvs[2 * j] == LineU(pointCount, j) && uvs[2 * j + 1] == 0.0
    {
      uvs[i * 2] := i as real / (pointCount - 1) as real;
      uvs[i * 2 + 1] := 0.0;
    }
  }

  /** The city a click selects: the city of the nearest hit area, passed once
      to `onCitySelect`, or none when the ray missed every hit area. */
  function ClickedCity(hits: seq<nat>): (selected: Option<City>)
    requires ValidHits(hits)
    ensures selected.Some? <==> |hits| > 0
    ensures selected.Some? ==> selected.value == Cities[hits[0]]
  {
    if |hits| > 0 then Some(Cities[hits[0]]) else None
  }

  /** What the pointer handlers drive: the hovered city and the page's
      cursor style. */
  datatype Hover = Hover(city: Option<nat>, cursor: string)

  /** `handlePointerMove` as a transition: a hit on a city other than the
      hovered one hovers it and shows the pointer; a miss while a city is
      hovered clears it and shows the default cursor; otherwise nothing
      changes. */
  function PointerMove(s: Hover, hits: seq<nat>): (s': Hover)
    ensures s'.city == FirstHit(hits)
    ensures s.city == FirstHit(hits) ==> s' == s
    ensures s.city != FirstHit(hits) ==> s'.cursor == (if |hits| > 0 then "pointer" else "default")
  {
    if |hits| > 0 then
      if s.city != Some(hits[0]) then Hover(Some(hits[0]), "pointer") else s
    else if s.city != None then Hover(None, "default")
    else s
  }

  /** The clean-up of the pointer-move effect: it restores the default
      cursor. */
  function EffectCleanup(s: Hover): Hover {
    s.(cursor := "default")
  }

  /** A pointer move as the component runs it: the handler depends on
      `hoveredCity`, so a change of hovered city makes a new handler, and
      the effect that registers it runs its clean-up before registering the
      new one. */
  function PointerMoveAsWritten(s: Hover, hits: seq<nat>): (s': Hover)
    ensures s'.city == FirstHit(hits)
    ensures s.city != FirstHit(hits) ==> s'.cursor == "default"
    ensures s.city == FirstHit(hits) ==> s' == s
  {
    var moved := PointerMove(s, hits);
    if moved.city != s.city then EffectCleanup(moved) else moved
  }

  /** The cursor shows the pointer exactly while a city is hovered. */
  predicate CursorMatchesHover(s: Hover) {
    s.cursor == "pointer" <==> s.city.Some?
  }

  /** As written, the pointer never stays: starting from the initial state,
      a move onto city 3 hovers it but leaves the default cursor. */
  lemma PointerCursorIsReset()
    ensures CursorMatchesHover(Hover(None, ""))
    ensures PointerMoveAsWritten(Hover(None, ""), [3]) == Hover(Some(3), "default")
    ensures !CursorMatchesHover(PointerMoveAsWritten(Hover(None, ""), [3]))
  {
  }

  /** The handler alone, with the clean-up left to unmounting, keeps the
      cursor in step with the hovered city. */
  lemma PointerMoveKeepsCursorMatched(s: Hover, hits: seq<nat>)
    requires CursorMatchesHover(s)
    ensures CursorMatchesHover(PointerMove(s, hits))
  {
  }

  class Globe {
    /** `linesRef.current`: the connection lines drawn on the globe. */
    var lines: seq<Line>
    /** The `hoveredCity` state: the index of the city under the pointer. */
    var hoveredCity: Option<nat>
    /** `document.body.style.cursor`, which the hover handler switches. */
    var cursor: string

    constructor ()
      ensures lines == [] && hoveredCity == None && cursor == ""
    {
      lines := [];
      hoveredCity := None;
      cursor := "";
    }

    /** The two passes of the scene set-up effect, pushing each new line onto
        `lines` and counting it in a local counter map. */
    method ConnectCities(d: Draws)
      requires ValidDraws(d)
      modifies this`lines
      ensures lines == old(lines) + Wire(d).lines
    {
      var connections := AddKeyConnections(d);
      AddRandomConnections(d, connections, old(lines));
    }

    /** The first pass: one line per key pair, counted at both ends. */
    method AddKeyConnections(d: Draws) returns (connections: map<nat, nat>)
      requires ValidDraws(d)
      modifies this`lines
      ensures lines == old(lines) + KeyPhase(|KeyConnections|, d).lines
      ensures connections == KeyPhase(|KeyConnections|, d).connections
    {
      connections := map[];
      for k := 0 to |KeyConnections|
        invariant lines == old(lines) + KeyPhase(k, d).lines
        invariant connections == KeyPhase(k, d).connections
      {
        connections := AddKeyConnection(d, k, connections, old(lines));
      }
    }

    /** One step of the first pass: key pair k gains its line and both its
        cities' counts go up by one. */
    method AddKeyConnection(d: Draws, k: nat, connections: map<nat, nat>, ghost before: seq<Line>)
      returns (next: map<nat, nat>)
      requires k < |KeyConnections| && ValidDraws(d)
      requires lines == before + KeyPhase(k, d).lines
      requires connections == KeyPhase(k, d).connections
      modifies this`lines
      ensures lines == before + KeyPhase(k + 1, d).lines
      ensures next == KeyPhase(k + 1, d).connections
    {
      KeyStepUnfolded(k, d);
      ghost var drawn := KeyPhase(k, d).lines;
      var (i, j) := KeyConnections[k];
      var line := Line(i, j, LineColor(d.keyColors[k]));
      lines := lines + [line];
      next := connections[i := CountOf(connections, i) + 1];
      next := next[j := CountOf(next, j) + 1];
      assert lines == before + (drawn + [line]);
    }

    /** The second pass: each city below the cap gains at most one line, to a
        partner drawn from its eligible cities. */
    method AddRandomConnections(d: Draws, keyCounts: map<nat, nat>, ghost before: seq<Line>)
      requires ValidDraws(d)
      requires lines == before + KeyPhase(|KeyConnections|, d).lines
      requires keyCounts == KeyPhase(|KeyConnections|, d).connections
      modifies this`lines
      ensures lines == before + Wire(d).lines
    {
      var connections := keyCounts;
      ghost var keyed := KeyPhase(|KeyConnections|, d);
      for i := 0 to CityCount
        invariant lines == before + RandomPhase(keyed, i, d).lines
        invariant connections == RandomPhase(keyed, i, d).connections
      {
        ghost var w := RandomPhase(keyed, i, d);
        assert RandomPhase(keyed, i + 1, d) == RandomStep(w, i, d.partners[i], d.partnerColors[i]);
        connections := AddRandomConnection(d, i, connections, w, before);
      }
    }

    /** The body of the second pass for city i: skip it at the cap; otherwise
        draw a partner among its candidates, push the line and count it at
        both ends. */
    method AddRandomConnection(d: Draws, i: nat, connections: map<nat, nat>, ghost w: Wiring, ghost before: seq<Line>)
      returns (next: map<nat, nat>)
      requires ValidDraws(d) && i < CityCount
      requires lines == before + w.lines && connections == w.connections
      modifies this`lines
      ensures lines == before + RandomStep(w, i, d.partners[i], d.partnerColors[i]).lines
      ensures next == RandomStep(w, i, d.partners[i], d.partnerColors[i]).connections
    {
      RandomStepUnfolded(w, i, d.partners[i], d.partnerColors[i]);
      next := connections;
      if CountOf(connections, i) >= MaxConnectionsPerCity { return; }
      var potential := CollectCandidates(connections, i);
      if |potential| > 0 {
        var j := potential[RandomIndex(d.partners[i], |potential|)];
        var line := Line(i, j, LineColor(d.partnerColors[i]));
        lines := lines + [line];
        assert lines == before + (w.lines + [line]);
        next := next[i := CountOf(next, i) + 1];
        next := next[j := CountOf(next, j) + 1];
      }
    }

    /** `handlePointerMove`: the transition `PointerMove` applied to the
        hovered city and the cursor. */
    method HandlePointerMove(hits: seq<nat>)
      modifies this`hoveredCity, this`cursor
      ensures Hover(hoveredCity, cursor) == PointerMove(Hover(old(hoveredCity), old(cursor)), hits)
    {
      if |hits| > 0 {
        var cityIndex := hits[0];
        if hoveredCity != Some(cityIndex) {
          cursor := "pointer";
          hoveredCity := Some(cityIndex);
        }
      } else if hoveredCity != None {
        cursor := "default";
        hoveredCity := None;
      }
    }

    /** The clean-up of the pointer-move effect, run when the component
        unmounts and, as written, whenever the handler is replaced. */
    method CleanUpPointerEffect()
      modifies this`cursor
      ensures Hover(hoveredCity, cursor) == EffectCleanup(Hover(hoveredCity, old(cursor)))
    {
      cursor := "default";
    }
  }
}
