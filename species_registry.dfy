/**
 * The species registry the reaction list resolves participant names against.
 * Only the species' names are read; the rest of a species record is carried
 * along untouched.
 */
module SpeciesRegistry {
  import opened Wrappers
  import opened JsonData

  datatype Species = Species(name: string, attributes: Json)

  /**
   * `next(filter(lambda x: x.name == name, species_list.species), None)`:
   * the first species of the registry with that name, or None when none has
   * it. A miss is not an error.
   */
  function Resolve(registry: seq<Species>, name: string): (r: Option<Species>)
    ensures r.None? <==> forall i :: 0 <= i < |registry| ==> registry[i].name != name
    ensures r.Some? ==>
      exists i :: 0 <= i < |registry| && registry[i] == r.value && r.value.name == name &&
        forall j :: 0 <= j < i ==> registry[j].name != name
  {
    if registry == [] then None
    else if registry[0].name == name then Some(registry[0])
    else
      var r := Resolve(registry[1..], name);
      assert forall i :: 0 <= i < |registry[1..]| ==> registry[1..][i] == registry[i + 1];
      r
  }
}
