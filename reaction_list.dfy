/**
 * The reaction list of a mechanism: turning the reaction records of a parsed
 * mechanism document into reactant, product and reaction records, the tag
 * dispatch that picks the reaction variant, and the list object itself.
 */
module MusicBoxReactionList {
  import opened Wrappers
  import opened JsonData
  import opened SpeciesRegistry
  import opened ReactionRecords

  const BranchedTag: string := "WENNBERG_NO_RO2"
  const ArrheniusTag: string := "ARRHENIUS"
  const TunnelingTag: string := "WENNBERG_TUNNELING"
  const TroeTag: string := "TROE"
  const TernaryTag: string := "TERNARY_CHEMICAL_ACTIVATION"

  // ---------------------------------------------------------------------------
  // The shapes of record the model accepts. Outside them the source mostly
  // raises. It accepts two of the excluded shapes without error: base
  // participant details that are a string not containing the amount key, or
  // a list not holding it.

  /** A participant mapping: a dict from species name to a dict of details. */
  predicate IsParticipantMapping(m: Members) {
    && IsDict(m)
    && forall i :: 0 <= i < |m| ==> m[i].1.JObject? && IsDict(m[i].1.members)
  }

  /** The key is absent, or bound to a participant mapping. */
  predicate OptionalMapping(rec: Members, key: string) {
    match Lookup(rec, key)
    case None => true
    case Some(v) => v.JObject? && IsParticipantMapping(v.members)
  }

  /** The key is bound to a participant mapping. */
  predicate RequiredMapping(rec: Members, key: string) {
    Lookup(rec, key).Some? && OptionalMapping(rec, key)
  }

  /**
   * A reaction record the source can read: `type` and `reactants` present,
   * `products` absent or a mapping, and, for the branched type, the alkoxy and
   * nitrate mappings absent or mappings.
   */
  predicate IsReactionRecord(rec: Members) {
    && IsDict(rec)
    && Lookup(rec, "type").Some?
    && RequiredMapping(rec, "reactants")
    && OptionalMapping(rec, "products")
    && (Get(rec, "type") == Some(JString(BranchedTag)) ==>
          OptionalMapping(rec, "alkoxy products") && OptionalMapping(rec, "nitrate products"))
  }

  predicate IsReactionObject(j: Json) {
    j.JObject? && IsReactionRecord(j.members)
  }

  // ---------------------------------------------------------------------------
  // Participants

  /** The reactant built for one `name: details` entry of `reactants`. */
  function ReactantOf(entry: (string, Json), registry: seq<Species>): (r: Reactant)
    requires entry.1.JObject?
    ensures r.species.None? <==> forall i :: 0 <= i < |registry| ==> registry[i].name != entry.0
    ensures r.species.Some? ==> r.species.value in registry && r.species.value.name == entry.0
    ensures r.species.Some? ==>
      exists i :: 0 <= i < |registry| && registry[i] == r.species.value &&
        forall j :: 0 <= j < i ==> registry[j].name != entry.0
    ensures r.quantity.Some? <==> Lookup(entry.1.members, "qty").Some? && Lookup(entry.1.members, "qty").value != JNull
    ensures r.quantity.Some? ==> Lookup(entry.1.members, "qty") == r.quantity
  {
    Reactant(Resolve(registry, entry.0), Get(entry.1.members, "qty"))
  }

  /** The product built for one `name: details` entry of a product mapping. */
  function ProductOf(entry: (string, Json), registry: seq<Species>): (p: Product)
    requires entry.1.JObject?
    ensures p.species.None? <==> forall i :: 0 <= i < |registry| ==> registry[i].name != entry.0
    ensures p.species.Some? ==> p.species.value in registry && p.species.value.name == entry.0
    ensures p.species.Some? ==>
      exists i :: 0 <= i < |registry| && registry[i] == p.species.value &&
        forall j :: 0 <= j < i ==> registry[j].name != entry.0
    ensures p.yieldValue.Some? <==> Lookup(entry.1.members, "yield").Some? && Lookup(entry.1.members, "yield").value != JNull
    ensures p.yieldValue.Some? ==> Lookup(entry.1.members, "yield") == p.yieldValue
  {
    Product(Resolve(registry, entry.0), Get(entry.1.members, "yield"))
  }

  /** One reactant per entry of the mapping, in the mapping's order. */
  function ReactantsOf(m: Members, registry: seq<Species>): seq<Reactant>
    requires IsParticipantMapping(m)
  {
    seq(|m|, i requires 0 <= i < |m| => ReactantOf(m[i], registry))
  }

  /** One product per entry of the mapping, in the mapping's order. */
  function ProductsOf(m: Members, registry: seq<Species>): seq<Product>
    requires IsParticipantMapping(m)
  {
    seq(|m|, i requires 0 <= i < |m| => ProductOf(m[i], registry))
  }

  // ---------------------------------------------------------------------------
  // Dispatch on the type tag

  /** The variant for every tag but the branched one. */
  function RateLawReaction(name: Option<Json>, tag: Option<Json>, reactants: seq<Reactant>,
                           products: seq<Product>, rec: Members): Reaction
  {
    if tag == Some(JString(ArrheniusTag)) then
      Arrhenius(name, tag, reactants, products,
                Get(rec, "A"), Get(rec, "B"), Get(rec, "D"), Get(rec, "E"), Get(rec, "Ea"))
    else if tag == Some(JString(TunnelingTag)) then
      Tunneling(name, tag, reactants, products, Get(rec, "A"), Get(rec, "B"), Get(rec, "C"))
    else if tag == Some(JString(TroeTag)) || tag == Some(JString(TernaryTag)) then
      TroeTernary(name, tag, reactants, products,
                  Get(rec, "k0_A"), Get(rec, "k0_B"), Get(rec, "k0_C"),
                  Get(rec, "kinf_A"), Get(rec, "kinf_B"), Get(rec, "kinf_C"),
                  Get(rec, "Fc"), Get(rec, "N"))
    else
      Generic(name, tag, reactants, products)
  }

  /** The reaction a record deserialises to. */
  function ReactionOf(rec: Members, registry: seq<Species>): Reaction
    requires IsReactionRecord(rec)
  {
    var name := Get(rec, "MUSICA name");
    var tag := Get(rec, "type");
    var reactants := ReactantsOf(MembersAt(rec, "reactants"), registry);
    if tag == Some(JString(BranchedTag)) then
      Branched(name, tag, reactants,
               ProductsOf(MembersAt(rec, "alkoxy products"), registry),
               ProductsOf(MembersAt(rec, "nitrate products"), registry),
               Get(rec, "X"), Get(rec, "Y"), Get(rec, "a0"), Get(rec, "n"))
    else
      RateLawReaction(name, tag, reactants, ProductsOf(MembersAt(rec, "products"), registry), rec)
  }

  // ---------------------------------------------------------------------------
  // The document the list is read from

  /** `document['mechanism']['reactions']['camp-data'][0]`, when that path exists. */
  function FirstMechanism(document: Json): Option<Members> {
    if !document.JObject? then None
    else match Lookup(document.members, "mechanism")
      case Some(JObject(mechanism)) =>
        (match Lookup(mechanism, "reactions")
         case Some(JObject(container)) =>
           (match Lookup(container, "camp-data")
            case Some(JArray(data)) =>
              if |data| > 0 && data[0].JObject? then Some(data[0].members) else None
            case _ => None)
         case _ => None)
      case _ => None
  }

  /** The `reactions` array of a mechanism, empty when it is not an array. */
  function RecordsOf(mechanism: Members): seq<Json> {
    match Lookup(mechanism, "reactions")
    case Some(JArray(items)) => items
    case _ => []
  }

  /**
   * A document `from_UI_JSON` can read: the path to the first mechanism
   * exists, that mechanism has a `name` and a `reactions` array, and every
   * entry of the array is a readable reaction record.
   */
  predicate IsUiDocument(document: Json) {
    && FirstMechanism(document).Some?
    && Lookup(FirstMechanism(document).value, "name").Some?
    && Lookup(FirstMechanism(document).value, "reactions").Some?
    && Lookup(FirstMechanism(document).value, "reactions").value.JArray?
    && forall i :: 0 <= i < |RecordsOf(FirstMechanism(document).value)| ==>
         IsReactionObject(RecordsOf(FirstMechanism(document).value)[i])
  }

  // ---------------------------------------------------------------------------
  // The list

  class ReactionList {
    var name: Option<Json>
    var reactions: seq<Reaction>

    /** A list with the given name; without reactions it starts empty. */
    constructor (name: Option<Json>, reactions: Option<seq<Reaction>>)
      ensures this.name == name
      ensures reactions.None? ==> this.reactions == []
      ensures reactions.Some? ==> this.reactions == reactions.value
    {
      this.name := name;
      this.reactions := if reactions.Some? then reactions.value else [];
    }

    /** Appends one reaction at the end; nothing before it changes. */
    method AddReaction(reaction: Reaction)
      modifies this
      ensures name == old(name)
      ensures reactions == old(reactions) + [reaction]
    {
      reactions := reactions + [reaction];
    }

    /**
     * The list named by the first mechanism of the document, holding the
     * dispatch of each of its reaction records, in order.
     */
    static method FromUiJson(document: Json, registry: seq<Species>) returns (list: ReactionList)
      requires IsUiDocument(document)
      ensures fresh(list)
      ensures list.name == Get(FirstMechanism(document).value, "name")
      ensures |list.reactions| == |RecordsOf(FirstMechanism(document).value)|
      ensures forall i :: 0 <= i < |list.reactions| ==>
        list.reactions[i] == ReactionOf(RecordsOf(FirstMechanism(document).value)[i].members, registry)
    {
      var mechanism := FirstMechanism(document).value;
      var listName := Get(mechanism, "name");
      var records := RecordsOf(mechanism);
      var reactions := [];
      for i := 0 to |records|
        invariant |reactions| == i
        invariant forall k :: 0 <= k < i ==> reactions[k] == ReactionOf(records[k].members, registry)
      {
        var reaction := GetReactionFromJson(records[i].members, registry);
        reactions := reactions + [reaction];
      }
      list := new ReactionList(listName, Some(reactions));
    }

    /** One reactant per entry of `reactants`, in order, unmatched names kept. */
    static method GetReactantsFromJson(rec: Members, registry: seq<Species>) returns (reactants: seq<Reactant>)
      requires RequiredMapping(rec, "reactants")
      ensures |reactants| == |MembersAt(rec, "reactants")|
      ensures forall i :: 0 <= i < |reactants| ==> reactants[i] == ReactantOf(MembersAt(rec, "reactants")[i], registry)
    {
      var mapping := MembersAt(rec, "reactants");
      reactants := [];
      var i := 0;
      while i < |mapping|
        invariant 0 <= i <= |mapping|
        invariant |reactants| == i
        invariant forall k :: 0 <= k < i ==> reactants[k] == ReactantOf(mapping[k], registry)
      {
        var species := Resolve(registry, mapping[i].0);
        var quantity := Get(mapping[i].1.members, "qty");
        reactants := reactants + [Reactant(species, quantity)];
        i := i + 1;
      }
    }

    /** The base products: empty without a `products` key, else one per entry, in order. */
    static method GetProductsFromJson(rec: Members, registry: seq<Species>) returns (products: seq<Product>)
      requires OptionalMapping(rec, "products")
      ensures Lookup(rec, "products").None? ==> products == []
      ensures |products| == |MembersAt(rec, "products")|
      ensures forall i :: 0 <= i < |products| ==> products[i] == ProductOf(MembersAt(rec, "products")[i], registry)
    {
      products := [];
      if Lookup(rec, "products").Some? {
        products := BuildProducts(MembersAt(rec, "products"), registry);
      }
    }

    /** The loop shared by the base, alkoxy and nitrate product lists. */
    static method BuildProducts(mapping: Members, registry: seq<Species>) returns (products: seq<Product>)
      requires IsParticipantMapping(mapping)
      ensures |products| == |mapping|
      ensures forall i :: 0 <= i < |mapping| ==> products[i] == ProductOf(mapping[i], registry)
    {
      products := [];
      var i := 0;
      while i < |mapping|
        invariant 0 <= i <= |mapping|
        invariant |products| == i
        invariant forall k :: 0 <= k < i ==> products[k] == ProductOf(mapping[k], registry)
      {
        var species := Resolve(registry, mapping[i].0);
        var yieldValue := Get(mapping[i].1.members, "yield");
        products := products + [Product(species, yieldValue)];
        i := i + 1;
      }
    }

    /** The reaction variant the record's type tag selects. */
    static method GetReactionFromJson(rec: Members, registry: seq<Species>) returns (reaction: Reaction)
      requires IsReactionRecord(rec)
      ensures reaction == ReactionOf(rec, registry)
    {
      var name := Get(rec, "MUSICA name");
      var tag := Get(rec, "type");
      var reactants := GetReactantsFromJson(rec, registry);
      assert reactants == ReactantsOf(MembersAt(rec, "reactants"), registry);
      var products := GetProductsFromJson(rec, registry);
      assert products == ProductsOf(MembersAt(rec, "products"), registry);
      if tag == Some(JString(BranchedTag)) {
        var alkoxyProducts := BuildProducts(MembersAt(rec, "alkoxy products"), registry);
        assert alkoxyProducts == ProductsOf(MembersAt(rec, "alkoxy products"), registry);
        var nitrateProducts := BuildProducts(MembersAt(rec, "nitrate products"), registry);
        assert nitrateProducts == ProductsOf(MembersAt(rec, "nitrate products"), registry);
        reaction := Branched(name, tag, reactants, alkoxyProducts, nitrateProducts,
                             Get(rec, "X"), Get(rec, "Y"), Get(rec, "a0"), Get(rec, "n"));
      } else {
        reaction := RateLawReaction(name, tag, reactants, products, rec);
      }
    }
  }
}
