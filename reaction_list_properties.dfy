/**
 * What the reaction list promises about the records it builds: the tag alone
 * picks the variant, every variant carries the record's name, type and
 * reactants, each parameter is the record's value under its own key, nothing
 * outside those keys matters, and every participant either names a registry
 * species or carries none.
 */
module ReactionListProperties {
  import opened Wrappers
  import opened JsonData
  import opened SpeciesRegistry
  import opened ReactionRecords
  import opened MusicBoxReactionList

  /** The tag selects the variant, both ways; unknown tags give the generic record. */
  lemma DispatchIsDeterminedByTag(rec: Members, registry: seq<Species>)
    requires IsReactionRecord(rec)
    ensures var r, tag := ReactionOf(rec, registry), Get(rec, "type");
      && (r.Branched? <==> tag == Some(JString(BranchedTag)))
      && (r.Arrhenius? <==> tag == Some(JString(ArrheniusTag)))
      && (r.Tunneling? <==> tag == Some(JString(TunnelingTag)))
      && (r.TroeTernary? <==> tag == Some(JString(TroeTag)) || tag == Some(JString(TernaryTag)))
      && (r.Generic? <==> tag !in {Some(JString(BranchedTag)), Some(JString(ArrheniusTag)),
                                   Some(JString(TunnelingTag)), Some(JString(TroeTag)),
                                   Some(JString(TernaryTag))})
  {
  }

  /**
   * Every variant carries the record's `type`, its `MUSICA name` (or None) and
   * its reactants; every variant but the branched one carries the base
   * products, which are empty when the record has no `products` key.
   */
  lemma EveryVariantCarriesTheBase(rec: Members, registry: seq<Species>)
    requires IsReactionRecord(rec)
    ensures var r := ReactionOf(rec, registry);
      && r.name == Get(rec, "MUSICA name")
      && r.reactionType == Get(rec, "type")
      && r.reactants == ReactantsOf(MembersAt(rec, "reactants"), registry)
      && (!r.Branched? ==> r.products == ProductsOf(MembersAt(rec, "products"), registry))
      && (!r.Branched? && Lookup(rec, "products").None? ==> r.products == [])
  {
    var name, tag := Get(rec, "MUSICA name"), Get(rec, "type");
    var reactants := ReactantsOf(MembersAt(rec, "reactants"), registry);
    if tag != Some(JString(BranchedTag)) {
      var products := ProductsOf(MembersAt(rec, "products"), registry);
      RateLawReactionKeepsBase(name, tag, reactants, products, rec);
      if Lookup(rec, "products").None? {
        assert MembersAt(rec, "products") == [];
      }
    }
  }

  lemma RateLawReactionKeepsBase(name: Option<Json>, tag: Option<Json>, reactants: seq<Reactant>,
                                 products: seq<Product>, rec: Members)
    ensures var r := RateLawReaction(name, tag, reactants, products, rec);
      !r.Branched? && r.name == name && r.reactionType == tag && r.reactants == reactants && r.products == products
  {
  }

  /** Each kinetic parameter is the record's value under exactly its own key, or None. */
  lemma ParametersAreRecordValues(rec: Members, registry: seq<Species>)
    requires IsReactionRecord(rec)
    ensures var r := ReactionOf(rec, registry);
      && (r.Arrhenius? ==>
            r.A == Get(rec, "A") && r.B == Get(rec, "B") && r.D == Get(rec, "D") &&
            r.E == Get(rec, "E") && r.Ea == Get(rec, "Ea"))
      && (r.Tunneling? ==> r.A == Get(rec, "A") && r.B == Get(rec, "B") && r.C == Get(rec, "C"))
      && (r.TroeTernary? ==>
            r.k0_A == Get(rec, "k0_A") && r.k0_B == Get(rec, "k0_B") && r.k0_C == Get(rec, "k0_C") &&
            r.kinf_A == Get(rec, "kinf_A") && r.kinf_B == Get(rec, "kinf_B") &&
            r.kinf_C == Get(rec, "kinf_C") && r.Fc == Get(rec, "Fc") && r.N == Get(rec, "N"))
      && (r.Branched? ==>
            r.X == Get(rec, "X") && r.Y == Get(rec, "Y") && r.a0 == Get(rec, "a0") && r.n == Get(rec, "n"))
  {
    var name, tag := Get(rec, "MUSICA name"), Get(rec, "type");
    if tag != Some(JString(BranchedTag)) {
      var reactants := ReactantsOf(MembersAt(rec, "reactants"), registry);
      var products := ProductsOf(MembersAt(rec, "products"), registry);
      assert ReactionOf(rec, registry) == RateLawReaction(name, tag, reactants, products, rec);
      RateLawParametersAreRecordValues(name, tag, reactants, products, rec);
    }
  }

  lemma RateLawParametersAreRecordValues(name: Option<Json>, tag: Option<Json>, reactants: seq<Reactant>,
                                         products: seq<Product>, rec: Members)
    ensures var r := RateLawReaction(name, tag, reactants, products, rec);
      && (r.Arrhenius? ==>
            r.A == Get(rec, "A") && r.B == Get(rec, "B") && r.D == Get(rec, "D") &&
            r.E == Get(rec, "E") && r.Ea == Get(rec, "Ea"))
      && (r.Tunneling? ==> r.A == Get(rec, "A") && r.B == Get(rec, "B") && r.C == Get(rec, "C"))
      && (r.TroeTernary? ==>
            r.k0_A == Get(rec, "k0_A") && r.k0_B == Get(rec, "k0_B") && r.k0_C == Get(rec, "k0_C") &&
            r.kinf_A == Get(rec, "kinf_A") && r.kinf_B == Get(rec, "kinf_B") &&
            r.kinf_C == Get(rec, "kinf_C") && r.Fc == Get(rec, "Fc") && r.N == Get(rec, "N"))
  {
  }

  /**
   * The branched variant's alkoxy and nitrate lists come from their own
   * mappings, in key order, and are empty when the mapping is missing.
   */
  lemma BranchedProductLists(rec: Members, registry: seq<Species>)
    requires IsReactionRecord(rec)
    requires Get(rec, "type") == Some(JString(BranchedTag))
    ensures var r := ReactionOf(rec, registry);
      && |r.alkoxyProducts| == |MembersAt(rec, "alkoxy products")|
      && (forall i :: 0 <= i < |r.alkoxyProducts| ==>
            r.alkoxyProducts[i] == ProductOf(MembersAt(rec, "alkoxy products")[i], registry))
      && |r.nitrateProducts| == |MembersAt(rec, "nitrate products")|
      && (forall i :: 0 <= i < |r.nitrateProducts| ==>
            r.nitrateProducts[i] == ProductOf(MembersAt(rec, "nitrate products")[i], registry))
      && (Lookup(rec, "alkoxy products").None? ==> r.alkoxyProducts == [])
      && (Lookup(rec, "nitrate products").None? ==> r.nitrateProducts == [])
  {
  }

  /** The keys of a record whose values can reach the reaction built for a tag. */
  function ResultKeys(tag: Option<Json>): set<string> {
    var base := {"MUSICA name", "type", "reactants"};
    if tag == Some(JString(BranchedTag)) then
      base + {"alkoxy products", "nitrate products", "X", "Y", "a0", "n"}
    else if tag == Some(JString(ArrheniusTag)) then
      base + {"products", "A", "B", "D", "E", "Ea"}
    else if tag == Some(JString(TunnelingTag)) then
      base + {"products", "A", "B", "C"}
    else if tag == Some(JString(TroeTag)) || tag == Some(JString(TernaryTag)) then
      base + {"products", "k0_A", "k0_B", "k0_C", "kinf_A", "kinf_B", "kinf_C", "Fc", "N"}
    else
      base + {"products"}
  }

  /** Two records that agree on the keys their tag reads give the same reaction. */
  lemma DispatchDependsOnlyOnResultKeys(rec1: Members, rec2: Members, registry: seq<Species>)
    requires IsReactionRecord(rec1) && IsReactionRecord(rec2)
    requires forall k :: k in ResultKeys(Get(rec1, "type")) ==> Lookup(rec1, k) == Lookup(rec2, k)
    ensures ReactionOf(rec1, registry) == ReactionOf(rec2, registry)
  {
    var keys := ResultKeys(Get(rec1, "type"));
    forall k | k in keys
      ensures Get(rec1, k) == Get(rec2, k) && MembersAt(rec1, k) == MembersAt(rec2, k)
    {
      assert Lookup(rec1, k) == Lookup(rec2, k);
    }
    assert {"MUSICA name", "type", "reactants"} <= keys;
    var tag := Get(rec1, "type");
    if tag == Some(JString(BranchedTag)) {
      assert {"alkoxy products", "nitrate products", "X", "Y", "a0", "n"} <= keys;
    } else {
      assert "products" in keys;
      var name, reactants := Get(rec1, "MUSICA name"), ReactantsOf(MembersAt(rec1, "reactants"), registry);
      var products := ProductsOf(MembersAt(rec1, "products"), registry);
      assert ReactionOf(rec1, registry) == RateLawReaction(name, tag, reactants, products, rec1);
      assert ReactionOf(rec2, registry) == RateLawReaction(name, tag, reactants, products, rec2);
      RateLawReactionReadsOnlyResultKeys(name, tag, reactants, products, rec1, rec2);
    }
  }

  lemma RateLawReactionReadsOnlyResultKeys(name: Option<Json>, tag: Option<Json>, reactants: seq<Reactant>,
                                           products: seq<Product>, rec1: Members, rec2: Members)
    requires forall k :: k in ResultKeys(tag) ==> Get(rec1, k) == Get(rec2, k)
    ensures RateLawReaction(name, tag, reactants, products, rec1) == RateLawReaction(name, tag, reactants, products, rec2)
  {
    var keys := ResultKeys(tag);
    if tag == Some(JString(ArrheniusTag)) {
      assert {"A", "B", "D", "E", "Ea"} <= keys;
    } else if tag == Some(JString(TunnelingTag)) {
      assert {"A", "B", "C"} <= keys;
    } else if tag == Some(JString(TroeTag)) || tag == Some(JString(TernaryTag)) {
      assert {"k0_A", "k0_B", "k0_C", "kinf_A", "kinf_B", "kinf_C", "Fc", "N"} <= keys;
    }
  }

  /**
   * For the branched type the base products are built but dropped: records
   * that differ only in `products` give the same reaction.
   */
  lemma BranchedIgnoresBaseProducts(rec1: Members, rec2: Members, registry: seq<Species>)
    requires IsReactionRecord(rec1) && IsReactionRecord(rec2)
    requires Get(rec1, "type") == Some(JString(BranchedTag))
    requires forall k :: k != "products" ==> Lookup(rec1, k) == Lookup(rec2, k)
    ensures ReactionOf(rec1, registry) == ReactionOf(rec2, registry)
  {
    assert "products" !in ResultKeys(Get(rec1, "type"));
    DispatchDependsOnlyOnResultKeys(rec1, rec2, registry);
  }

  /** Every participant names a species of the registry, or names none. */
  predicate SpeciesResolved(registry: seq<Species>, species: Option<Species>) {
    species.None? || species.value in registry
  }

  predicate ParticipantsResolved(r: Reaction, registry: seq<Species>) {
    && (forall i :: 0 <= i < |r.reactants| ==> SpeciesResolved(registry, r.reactants[i].species))
    && (!r.Branched? ==>
          forall i :: 0 <= i < |r.products| ==> SpeciesResolved(registry, r.products[i].species))
    && (r.Branched? ==>
          && (forall i :: 0 <= i < |r.alkoxyProducts| ==> SpeciesResolved(registry, r.alkoxyProducts[i].species))
          && (forall i :: 0 <= i < |r.nitrateProducts| ==> SpeciesResolved(registry, r.nitrateProducts[i].species)))
  }

  /** No reaction ever holds a dangling species reference. */
  lemma ReactionParticipantsResolved(rec: Members, registry: seq<Species>)
    requires IsReactionRecord(rec)
    ensures ParticipantsResolved(ReactionOf(rec, registry), registry)
  {
    var r := ReactionOf(rec, registry);
    EveryVariantCarriesTheBase(rec, registry);
    ReactantsResolved(MembersAt(rec, "reactants"), registry);
    if r.Branched? {
      BranchedProductLists(rec, registry);
      ProductsResolved(MembersAt(rec, "alkoxy products"), registry);
      ProductsResolved(MembersAt(rec, "nitrate products"), registry);
    } else {
      ProductsResolved(MembersAt(rec, "products"), registry);
    }
  }

  lemma ReactantsResolved(m: Members, registry: seq<Species>)
    requires IsParticipantMapping(m)
    ensures forall i :: 0 <= i < |m| ==> SpeciesResolved(registry, ReactantsOf(m, registry)[i].species)
  {
  }

  lemma ProductsResolved(m: Members, registry: seq<Species>)
    requires IsParticipantMapping(m)
    ensures forall i :: 0 <= i < |m| ==> SpeciesResolved(registry, ProductsOf(m, registry)[i].species)
  {
  }

  /** Building reactants follows key order: a split mapping builds the two halves in turn. */
  lemma {:induction false} ReactantsFollowKeyOrder(m1: Members, m2: Members, registry: seq<Species>)
    requires IsParticipantMapping(m1 + m2)
    ensures IsParticipantMapping(m1) && IsParticipantMapping(m2)
    ensures ReactantsOf(m1 + m2, registry) == ReactantsOf(m1, registry) + ReactantsOf(m2, registry)
  {
    var m := m1 + m2;
    forall i, j | 0 <= i < j < |m2| ensures m2[i].0 != m2[j].0 {
      assert m2[i] == m[|m1| + i] && m2[j] == m[|m1| + j];
    }
    forall i | 0 <= i < |m2| ensures m2[i].1.JObject? && IsDict(m2[i].1.members) {
      assert m2[i] == m[|m1| + i];
    }
    forall i, j | 0 <= i < j < |m1| ensures m1[i].0 != m1[j].0 {
      assert m1[i] == m[i] && m1[j] == m[j];
    }
    forall i | 0 <= i < |m1| ensures m1[i].1.JObject? && IsDict(m1[i].1.members) {
      assert m1[i] == m[i];
    }
  }

  /**
   * A name missing from the registry is kept: `{"A": {"qty": 2}, "B": {}}`
   * against a registry holding only A gives A with quantity 2, then a reactant
   * with no species and no quantity.
   */
  lemma ExampleUnmatchedReactantKept()
    ensures var a := Species("A", JNull);
      ReactantsOf([("A", JObject([("qty", JNumber("2"))])), ("B", JObject([]))], [a])
        == [Reactant(Some(a), Some(JNumber("2"))), Reactant(None, None)]
  {
  }
}
