/**
 * The constant planet tables (planetData.js): the facts shown for the Sun and
 * the eight planets, and the camera position used to look at each of them.
 */
module Planets {
  import opened KeyLists
  import Playground

  /** One entry of `planetData`: diameter in km, rotation period as shown,
      distance from the Sun in millions of km, and the entry's two texts,
      named by the `TextId` that `Text` spells out. */
  datatype Planet = Planet(
    name: string, diameter: nat, rotation: string, distance: real,
    description: TextId, fact: TextId)

  /** Names the `description` and the `fact` text of each entry. */
  datatype TextId =
    | SunDescription | SunFact
    | MercuryDescription | MercuryFact
    | VenusDescription | VenusFact
    | EarthDescription | EarthFact
    | MarsDescription | MarsFact
    | JupiterDescription | JupiterFact
    | SaturnDescription | SaturnFact
    | UranusDescription | UranusFact
    | NeptuneDescription | NeptuneFact

  /** The texts of `planetData`, word for word. */
  function Text(id: TextId): string {
    match id
    case SunDescription =>
      "The Sun is the star at the center of our Solar System. It's a nearly perfect sphere of hot plasma, heated by nuclear fusion reactions in its core. The Sun radiates energy mostly as light, ultraviolet, and infrared radiation."
    case SunFact =>
      "The Sun accounts for 99.86% of the mass in the Solar System."
    case MercuryDescription =>
      "Mercury is the smallest planet in our Solar System and the closest to the Sun. Its surface is heavily cratered, resembling Earth's Moon. It has extreme temperature variations, from 430°C in the day to -180°C at night."
    case MercuryFact =>
      "A year on Mercury (88 Earth days) is shorter than its day (176 Earth days)."
    case VenusDescription =>
      "Venus is the second planet from the Sun and Earth's closest planetary neighbor. It has a thick atmosphere that traps heat in a runaway greenhouse effect, making it the hottest planet in our solar system."
    case VenusFact =>
      "Venus rotates in the opposite direction to most planets, meaning the Sun rises in the west and sets in the east."
    case EarthDescription =>
      "Earth is the third planet from the Sun and the only astronomical object known to harbor life. About 71% of Earth's surface is covered with water, with the remaining 29% consisting of continents and islands."
    case EarthFact =>
      "Earth is the only planet not named after a god in our Solar System."
    case MarsDescription =>
      "Mars is the fourth planet from the Sun and the second-smallest planet in the Solar System. It's often called the 'Red Planet' due to the iron oxide on its surface giving it a reddish appearance."
    case MarsFact =>
      "Mars has the largest dust storms in the Solar System, sometimes engulfing the entire planet."
    case JupiterDescription =>
      "Jupiter is the fifth planet from the Sun and the largest in the Solar System. It's a gas giant primarily composed of hydrogen and helium, with colorful cloud bands and the iconic Great Red Spot."
    case JupiterFact =>
      "Jupiter's Great Red Spot is a storm that has been continuously observed for over 400 years."
    case SaturnDescription =>
      "Saturn is the sixth planet from the Sun and the second-largest in the Solar System, characterized by its spectacular ring system. Like Jupiter, it's a gas giant composed mostly of hydrogen and helium."
    case SaturnFact =>
      "Saturn's rings are made up of billions of ice particles, ranging in size from tiny dust grains to house-sized chunks."
    case UranusDescription =>
      "Uranus is the seventh planet from the Sun and the third-largest by diameter. It's unique among the planets for rotating on its side, with an axial tilt of 98 degrees."
    case UranusFact =>
      "Uranus was the first planet discovered with the use of a telescope, by William Herschel in 1781."
    case NeptuneDescription =>
      "Neptune is the eighth and farthest known planet from the Sun. It's a dark, cold world with supersonic winds, and is similar in composition to Uranus. It was predicted mathematically before it was observed."
    case NeptuneFact =>
      "Neptune's winds are the fastest in the Solar System, reaching up to 2,100 km/h (1,300 mph)."
  }

  /** `planetData`, keyed by the body's name. */
  const PlanetData: map<string, Planet> := map[
    "Sun" := Planet("Sun", 1392700, "25-35 days", 0.0, SunDescription, SunFact),
    "Mercury" := Planet("Mercury", 4879, "58.6 days", 57.9, MercuryDescription, MercuryFact),
    "Venus" := Planet("Venus", 12104, "243 days (retrograde)", 108.2, VenusDescription, VenusFact),
    "Earth" := Planet("Earth", 12756, "23.9 hours", 149.6, EarthDescription, EarthFact),
    "Mars" := Planet("Mars", 6792, "24.6 hours", 227.9, MarsDescription, MarsFact),
    "Jupiter" := Planet("Jupiter", 142984, "9.9 hours", 778.6, JupiterDescription, JupiterFact),
    "Saturn" := Planet("Saturn", 120536, "10.7 hours", 1433.5, SaturnDescription, SaturnFact),
    "Uranus" := Planet("Uranus", 51118, "17.2 hours (retrograde)", 2872.5, UranusDescription, UranusFact),
    "Neptune" := Planet("Neptune", 49528, "16.1 hours", 4495.1, NeptuneDescription, NeptuneFact)
  ]

  /** The bodies in the order the table lists them, outwards from the Sun. */
  const PlanetOrder: seq<string> := ["Sun", "Mercury", "Venus", "Earth", "Mars", "Jupiter", "Saturn", "Uranus", "Neptune"]

  /** `cameraPositions`: an [x, y, z] position per body, plus the overview. */
  const CameraPositions: map<string, seq<int>> := map[
    "Sun" := [0, 8, 15], "Mercury" := [8, 2, 2], "Venus" := [13, 3, 3],
    "Earth" := [18, 5, 5], "Mars" := [26, 3, 7], "Jupiter" := [52, 10, 15],
    "Saturn" := [64, 10, 20], "Uranus" := [76, 6, 15], "Neptune" := [88, 6, 15],
    "Overview" := [0, 50, 120]
  ]

  /** The table has one entry per listed body, nine in all. */
  lemma PlanetTableShape()
    ensures |PlanetOrder| == 9 && Distinct(PlanetOrder) && PlanetOrder[0] == "Sun"
    ensures PlanetData.Keys == set k | k in PlanetOrder
  {
  }

  /** Each entry's `name` is its key. */
  lemma NamesAreKeys()
    ensures forall k :: k in PlanetData ==> PlanetData[k].name == k
  {
  }

  /** `planetData` has exactly nine entries. */
  lemma PlanetCount()
    ensures |PlanetData| == 9
  {
    PlanetTableShape();
    DistinctKeysCount(PlanetOrder);
    assert |PlanetData| == |PlanetData.Keys|;
  }

  /** The distance of the body at a place in the table order. */
  function DistanceAt(i: nat): (d: real)
    requires i < |PlanetOrder|
  {
    PlanetData[PlanetOrder[i]].distance
  }

  /** The Sun is at distance 0 and, outwards from it, every body is strictly
      farther than the one before. */
  lemma DistancesIncrease()
    ensures DistanceAt(0) == 0.0
    ensures forall i, j :: 0 <= i < j < |PlanetOrder| ==> DistanceAt(i) < DistanceAt(j)
  {
    assert forall i :: 0 <= i < |PlanetOrder| - 1 ==> DistanceAt(i) < DistanceAt(i + 1);
    forall i, j | 0 <= i < j < |PlanetOrder|
      ensures DistanceAt(i) < DistanceAt(j)
    {
      var k := i + 1;
      while k < j
        invariant i < k <= j
        invariant DistanceAt(i) < DistanceAt(k)
      {
        k := k + 1;
      }
    }
  }

  /** No distance is negative. */
  lemma DistancesNonNegative()
    ensures forall k :: k in PlanetData ==> PlanetData[k].distance >= 0.0
  {
    PlanetTableShape();
    DistancesIncrease();
    forall k | k in PlanetData
      ensures PlanetData[k].distance >= 0.0
    {
      var i :| 0 <= i < |PlanetOrder| && PlanetOrder[i] == k;
      assert i == 0 || DistanceAt(0) < DistanceAt(i);
    }
  }

  /** Every diameter is positive and the Sun's is larger than any other. */
  lemma SunIsLargest()
    ensures forall k :: k in PlanetData ==> PlanetData[k].diameter > 0
    ensures forall k :: k in PlanetData && k != "Sun" ==> PlanetData[k].diameter < PlanetData["Sun"].diameter
  {
  }

  /** There is a camera position for every body and one for the overview,
      and no other; each is an [x, y, z] triple. */
  lemma CameraTable()
    ensures CameraPositions.Keys == PlanetData.Keys + {"Overview"}
    ensures forall k :: k in CameraPositions ==> |CameraPositions[k]| == 3
  {
  }

  /** The name with its first letter in lower case ("Mars" to "mars"). */
  function LowerFirst(name: string): (lowered: string)
    ensures |lowered| == |name|
    ensures name != [] ==> lowered[1..] == name[1..]
  {
    if name == [] then name
    else if 'A' <= name[0] <= 'Z' then [(name[0] as int + 32) as char] + name[1..]
    else name
  }

  /** The playground key holding a body's default orbit radius
      ("Mars" to "marsOrbit"). */
  function OrbitKey(name: string): string {
    LowerFirst(name) + "Orbit"
  }

  /** The camera for the planet at a place in the table order stands on the
      x axis at that planet's default orbit radius in the playground store. */
  ghost predicate CameraOnOrbit(i: nat)
    requires i < |PlanetOrder|
  {
    var k := PlanetOrder[i];
    OrbitKey(k) in Playground.InitialValues &&
    CameraPositions[k][0] as real == Playground.InitialValues[OrbitKey(k)]
  }

  // One lemma per planet keeps the string comparisons of each apart.

  lemma MercuryCameraOnOrbit()
    ensures CameraOnOrbit(1)
  {
    assert OrbitKey("Mercury") == "mercuryOrbit";
  }

  lemma VenusCameraOnOrbit()
    ensures CameraOnOrbit(2)
  {
    assert OrbitKey("Venus") == "venusOrbit";
  }

  lemma EarthCameraOnOrbit()
    ensures CameraOnOrbit(3)
  {
    assert OrbitKey("Earth") == "earthOrbit";
  }

  lemma MarsCameraOnOrbit()
    ensures CameraOnOrbit(4)
  {
    assert OrbitKey("Mars") == "marsOrbit";
  }

  lemma JupiterCameraOnOrbit()
    ensures CameraOnOrbit(5)
  {
    assert OrbitKey("Jupiter") == "jupiterOrbit";
  }

  lemma SaturnCameraOnOrbit()
    ensures CameraOnOrbit(6)
  {
    assert OrbitKey("Saturn") == "saturnOrbit";
  }

  lemma UranusCameraOnOrbit()
    ensures CameraOnOrbit(7)
  {
    assert OrbitKey("Uranus") == "uranusOrbit";
  }

  lemma NeptuneCameraOnOrbit()
    ensures CameraOnOrbit(8)
  {
    assert OrbitKey("Neptune") == "neptuneOrbit";
  }

  /** Every planet's camera stands on its default orbit; the Sun's camera
      stands at x = 0, where the Sun is. */
  lemma CameraStandsOnOrbit()
    ensures forall i :: 1 <= i < |PlanetOrder| ==> CameraOnOrbit(i)
    ensures CameraPositions["Sun"][0] == 0
  {
    forall i | 1 <= i < |PlanetOrder|
      ensures CameraOnOrbit(i)
    {
      if i == 1 { MercuryCameraOnOrbit(); }
      else if i == 2 { VenusCameraOnOrbit(); }
      else if i == 3 { EarthCameraOnOrbit(); }
      else if i == 4 { MarsCameraOnOrbit(); }
      else if i == 5 { JupiterCameraOnOrbit(); }
      else if i == 6 { SaturnCameraOnOrbit(); }
      else if i == 7 { UranusCameraOnOrbit(); }
      else { NeptuneCameraOnOrbit(); }
    }
  }
}
