/**
 * The navigation bar of `src/components/Navigation.jsx`: each button builds a selection record
 * for the sun or for a planet looked up by name, and hands it to the store's `setSelectedObject`.
 */
module Navigation {
  import opened Wrappers
  import opened Geometry
  import opened UniverseStore

  /** The planets that have a button, in the bar's order. */
  const ButtonPlanets: seq<string> := ["Mercury", "Venus", "Earth", "Mars", "Jupiter", "Saturn", "Uranus", "Neptune"]

  /** The selection record for a planet: its type, the requested name, and position, radius and orbit radius. */
  function PlanetSelection(name: string, p: Planet): SceneObject {
    SceneObject(PlanetKind, name, [("position", Point(p.position)), ("radius", Number(p.radius)), ("orbitRadius", Number(p.orbitRadius))])
  }

  /** The store after `focusOnPlanet(name)`. */
  function AfterFocusOnPlanet(s: State, name: string): (r: State)
    ensures FindPlanet(s.Planets(), name).None? ==> r == s
    ensures FindPlanet(s.Planets(), name).Some? ==> r == s.(selectedObject := Some(PlanetSelection(name, FindPlanet(s.Planets(), name).value)))
  {
    match FindPlanet(s.Planets(), name)
    case Some(p) => s.(selectedObject := Some(PlanetSelection(name, p)))
    case None => s
  }

  /**
   * A known name selects a planet record whose name is the requested one and whose data are copied
   * from the first planet of that name (later planets, even of the same name, do not matter);
   * an unknown name leaves the selection, and everything else, as it was.
   */
  lemma {:induction false} FocusSelectsFirstMatch(s: State, before: seq<Planet>, p: Planet, after: seq<Planet>)
    requires s.Planets() == before + [p] + after
    requires forall q :: q in before ==> q.name != p.name
    ensures var r := AfterFocusOnPlanet(s, p.name);
      && r.(selectedObject := s.selectedObject) == s
      && r.selectedObject.Some?
      && r.selectedObject.value.kind == PlanetKind
      && r.selectedObject.value.name == p.name
      && r.selectedObject.value.data == [("position", Point(p.position)), ("radius", Number(p.radius)), ("orbitRadius", Number(p.orbitRadius))]
  {
    FindPlanetStopsAtFirstMatch(before, p, after);
  }

  lemma FocusOnUnknownIsIgnored(s: State, name: string)
    requires forall q :: q in s.Planets() ==> q.name != name
    ensures AfterFocusOnPlanet(s, name) == s
  {}

  /** `×`, superscript three and superscript zero in the sun's mass. */
  const SunMass: string := "1.989 \U{00D7} 10\U{00B3}\U{2070} kg"

  /** The selection record for the sun: always the same, whatever the store holds. */
  const SunSelection: SceneObject :=
    SceneObject(StarKind, "Sun", [("radius", Number(696340.0)), ("temperature", Number(5778.0)), ("mass", Text(SunMass))])

  /** The store after `focusOnSun()`. */
  function AfterFocusOnSun(s: State): (r: State)
    ensures r.selectedObject == Some(SunSelection) && r.(selectedObject := s.selectedObject) == s
    ensures r.selectedObject.value.kind == StarKind && r.selectedObject.value.name == "Sun"
  {
    s.(selectedObject := Some(SunSelection))
  }

  /** Clicking the same button twice selects the same thing as clicking it once. */
  lemma FocusIdempotent(s: State, name: string)
    ensures AfterFocusOnPlanet(AfterFocusOnPlanet(s, name), name) == AfterFocusOnPlanet(s, name)
    ensures AfterFocusOnSun(AfterFocusOnSun(s)) == AfterFocusOnSun(s)
  {
    var r := AfterFocusOnPlanet(s, name);
    assert r.Planets() == s.Planets();
  }

  /** With the store's initial planets, every planet button finds its planet. */
  lemma ButtonsResolveInitially()
    ensures forall name :: name in ButtonPlanets ==> FindPlanet(InitialPlanets, name).Some?
  {
    forall name | name in ButtonPlanets
      ensures FindPlanet(InitialPlanets, name).Some?
    {
      var i :| 0 <= i < 8 && ButtonPlanets[i] == name;
      assert InitialPlanets[i].name == name;
      assert InitialPlanets[i] in InitialPlanets;
    }
  }

  /** `focusOnPlanet(name)` as a click handler. */
  method FocusOnPlanet(store: Store, name: string)
    modifies store
    ensures store.state == AfterFocusOnPlanet(old(store.state), name)
  {
    var planet := FindPlanet(store.state.Planets(), name);
    if planet.Some? {
      store.SetSelectedObject(Some(PlanetSelection(name, planet.value)));
    }
  }

  /** `focusOnSun()` as a click handler. */
  method FocusOnSun(store: Store)
    modifies store
    ensures store.state == AfterFocusOnSun(old(store.state))
  {
    store.SetSelectedObject(Some(SunSelection));
  }
}
