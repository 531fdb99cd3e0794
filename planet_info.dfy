/**
 * The information panel (PlanetInfo.jsx): nothing for an empty or unknown
 * name, otherwise the fields of that body's `planetData` entry.
 */
module PlanetInfo {
  import opened Wrappers
  import opened Planets

  /** A number shown with its unit after it. */
  datatype Quantity = Quantity(amount: real, unit: string)

  /** What the panel shows: the title, the three figures and the two texts. */
  datatype Panel = Panel(
    title: string, diameter: Quantity, rotation: string, distance: Quantity,
    description: string, fact: string)

  const DiameterUnit: string := " km"
  const DistanceUnit: string := " million km"

  /** `PlanetInfo({planet})`: `None` (and the empty name, which JavaScript
      treats as false) render nothing, as does a name the table lacks;
      otherwise the panel of that entry. */
  function PanelFor(planet: Option<string>): (panel: Option<Panel>)
    ensures panel.Some? <==> planet.Some? && planet.value != "" && planet.value in PlanetData
    ensures panel.Some? ==>
      var data := PlanetData[planet.value];
      panel.value.title == data.name &&
      panel.value.diameter == Quantity(data.diameter as real, DiameterUnit) &&
      panel.value.rotation == data.rotation &&
      panel.value.distance == Quantity(data.distance, DistanceUnit) &&
      panel.value.description == Text(data.description) &&
      panel.value.fact == Text(data.fact)
  {
    if planet.None? || planet.value == "" then None
    else if planet.value !in PlanetData then None
    else
      var data := PlanetData[planet.value];
      Some(Panel(
        data.name, Quantity(data.diameter as real, DiameterUnit), data.rotation,
        Quantity(data.distance, DistanceUnit), Text(data.description), Text(data.fact)))
  }

  /** The panel for a known name is titled with that very name, and every
      body in the table has a panel. */
  lemma PanelTitledByRequest(name: string)
    requires name in PlanetData
    ensures PanelFor(Some(name)).Some?
    ensures PanelFor(Some(name)).value.title == name
  {
    NamesAreKeys();
  }
}
