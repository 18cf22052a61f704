/**
 * The records the reaction list builds: reactants, products and the reaction
 * variants, each with the fields its constructor is given positionally.
 * Every kinetic parameter is the uninterpreted JSON value of the record, or
 * None.
 */
module ReactionRecords {
  import opened Wrappers
  import opened JsonData
  import opened SpeciesRegistry

  datatype Reactant = Reactant(species: Option<Species>, quantity: Option<Json>)

  datatype Product = Product(species: Option<Species>, yieldValue: Option<Json>)

  datatype Reaction =
    /** Any type tag this core does not recognise: the base fields only. */
    | Generic(name: Option<Json>, reactionType: Option<Json>,
              reactants: seq<Reactant>, products: seq<Product>)
    | Arrhenius(name: Option<Json>, reactionType: Option<Json>,
                reactants: seq<Reactant>, products: seq<Product>,
                A: Option<Json>, B: Option<Json>, D: Option<Json>, E: Option<Json>, Ea: Option<Json>)
    | Tunneling(name: Option<Json>, reactionType: Option<Json>,
                reactants: seq<Reactant>, products: seq<Product>,
                A: Option<Json>, B: Option<Json>, C: Option<Json>)
    | TroeTernary(name: Option<Json>, reactionType: Option<Json>,
                  reactants: seq<Reactant>, products: seq<Product>,
                  k0_A: Option<Json>, k0_B: Option<Json>, k0_C: Option<Json>,
                  kinf_A: Option<Json>, kinf_B: Option<Json>, kinf_C: Option<Json>,
                  Fc: Option<Json>, N: Option<Json>)
    /** No base products: only the alkoxy and nitrate branches. */
    | Branched(name: Option<Json>, reactionType: Option<Json>,
               reactants: seq<Reactant>,
               alkoxyProducts: seq<Product>, nitrateProducts: seq<Product>,
               X: Option<Json>, Y: Option<Json>, a0: Option<Json>, n: Option<Json>)
}
