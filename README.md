# Reaction list of a MusicBox mechanism, in Dafny

This project models how MusicBox's `ReactionList` reads the reactions of a
chemical mechanism out of an already-parsed JSON document. Each reaction
record becomes a typed reaction, and its reactants and products are resolved
against a species registry. The model covers:

- the first-match species lookup by name, where a miss gives `None` and is
  not an error;
- the reactant and product builders, which keep every entry of a mapping in
  key order, including entries whose name matches no species;
- the exact-string dispatch on the record's `type`. `WENNBERG_NO_RO2` gives
  `Branched`, `ARRHENIUS` gives `Arrhenius`, `WENNBERG_TUNNELING` gives
  `Tunneling`, and `TROE` or `TERNARY_CHEMICAL_ACTIVATION` gives
  `TroeTernary`. Any other tag gives the generic record;
- the `ReactionList` object: its constructor, `add_reaction`, and
  `from_UI_JSON`, which dispatches every record of the first mechanism in
  order.

Files:

- `wrappers.dfy`: `Option`, standing for Python's `None`.
- `json_data.dfy`: JSON values. An object is its members in document order
  (a Python dict's iteration order). `Lookup` is `d[key]` guarded by
  `key in d`. `Get` is `d.get(key)`. `MembersAt` is `d.get(key, {})`
  where the key is absent or bound to an object, the only cases its callers
  allow.
- `species_registry.dfy`: species and the name lookup.
- `reaction_records.dfy`: the `Reactant`, `Product` and reaction-variant
  records, with the fields their constructors receive positionally.
- `reaction_list.dfy`: the specification functions (`ReactantOf`,
  `ProductOf`, `ReactantsOf`, `ProductsOf`, `ReactionOf`) and the class
  `ReactionList`. The class's methods have the source's loops and are proved
  equal to those functions.
- `reaction_list_properties.dfy`: lemmas about the dispatch.

Modelling choices:

- JSON `null` loads as Python's `None`. So `Get` gives `None` both for an
  absent key and for a key bound to `null`, as `d.get(k)` and
  `d[k] if k in d else None` both do. A parameter that is `Some(v)` therefore
  never holds `null`.
- The type tag is read the same way and compared with
  `Some(JString("ARRHENIUS"))` and the other tags. A tag that is not a string
  cannot equal any of them, so it falls through to the generic record, as in
  Python.
- Numbers are kept as their literal text and are never interpreted.
- The branched variant has no base products. The source builds them
  (music_box_reaction_list.py:117) but does not pass them to `Branched` (line
  142). `BranchedIgnoresBaseProducts` states the consequence: two records
  that differ only in `products` give the same branched reaction.
- The preconditions `IsReactionRecord` (for a record) and `IsUiDocument`
  (for the document) exclude the inputs on which the source raises
  `KeyError`, `TypeError` or `AttributeError`:
  - a reaction entry that is not an object (lines 113-114);
  - a missing `type` or `reactants`;
  - `reactants` or `products` bound to something other than an object
    (lines 90 and 102);
  - base reactant or product details that are a number, `null` or a
    boolean (`'qty' in info` at line 93, `'yield' in info` at line 105);
  - base details that are a string containing `qty` (or `yield`) or a list
    holding it: the `in` test passes and `info['qty']` then raises;
  - for `WENNBERG_NO_RO2`, an `alkoxy products` or `nitrate products` key
    bound to something other than an object, or an alkoxy or nitrate entry
    whose details are not an object;
  - a broken `mechanism / reactions / camp-data[0]` path.
- The same preconditions also exclude some malformed inputs that the source
  accepts without error. These are listed under "## Left out".
- The preconditions also ask that the objects the core iterates have
  distinct keys, as every Python dict does.

## Model

| member | source | states |
|---|---|---|
| `JsonData.Lookup` | src/acom_music_box/music_box_reaction_list.py:113-114 | `d[key]` with `key in d`: absent exactly when no member has the key; otherwise the value of a member with that key |
| `JsonData.LookupFindsMember` | src/acom_music_box/music_box_reaction_list.py:90 | in a dict, each member yielded by `.items()` is what looking its key up returns |
| `JsonData.Get` | src/acom_music_box/music_box_reaction_list.py:93 | `d[k] if k in d else None` (and `d.get(k)`): `Some` exactly when the key is present with a non-null value, and then that value |
| `JsonData.MembersAt` | src/acom_music_box/music_box_reaction_list.py:122 | `d.get(key, {})`: empty when the key is absent; when the key is bound to an object, exactly that object's members |
| `SpeciesRegistry.Resolve` | src/acom_music_box/music_box_reaction_list.py:91-92 | `None` exactly when no registry species has the name; otherwise the first registry species with that name (no earlier entry matches) |
| `MusicBoxReactionList.ReactantOf` | src/acom_music_box/music_box_reaction_list.py:91-95 | a reactant's species is absent exactly when no registry entry has its name, otherwise the first registry entry of that name (no earlier entry has the name); its quantity is the value of `qty` when that key is present and not null, and `None` otherwise |
| `MusicBoxReactionList.ProductOf` | src/acom_music_box/music_box_reaction_list.py:103-107 | the same for a product: species absent exactly on a miss, otherwise the first registry entry of that name; yield the value of `yield` when present and not null, else `None` |
| `MusicBoxReactionList.ReactionList.constructor` | src/acom_music_box/music_box_reaction_list.py:16-25 | the list has the given name; its reactions are the given ones, or empty when none are given |
| `MusicBoxReactionList.ReactionList.AddReaction` | src/acom_music_box/music_box_reaction_list.py:77-84 | appends exactly the one reaction at the end; the earlier reactions and the name are unchanged |
| `MusicBoxReactionList.ReactionList.FromUiJson` | src/acom_music_box/music_box_reaction_list.py:28-46 | a fresh list named by `camp-data[0].name`, with as many reactions as records; reaction i is the dispatch of record i |
| `MusicBoxReactionList.ReactionList.GetReactantsFromJson` | src/acom_music_box/music_box_reaction_list.py:87-96 | one reactant per entry of `reactants`, in key order, unmatched names included |
| `MusicBoxReactionList.ReactionList.GetProductsFromJson` | src/acom_music_box/music_box_reaction_list.py:99-108 | empty when the record has no `products`; otherwise one product per entry, in key order |
| `MusicBoxReactionList.ReactionList.BuildProducts` | src/acom_music_box/music_box_reaction_list.py:122-136 | the product loop shared by the base, alkoxy and nitrate lists: one product per entry, in key order |
| `MusicBoxReactionList.ReactionList.GetReactionFromJson` | src/acom_music_box/music_box_reaction_list.py:111-166 | the reaction built equals the specification `ReactionOf` of the record |
| `ReactionListProperties.DispatchIsDeterminedByTag` | src/acom_music_box/music_box_reaction_list.py:119-166 | each variant is produced exactly when the tag is its own (TROE or TERNARY_CHEMICAL_ACTIVATION for Troe/ternary); the generic record exactly when the tag is none of the five |
| `ReactionListProperties.EveryVariantCarriesTheBase` | src/acom_music_box/music_box_reaction_list.py:113-117 | every variant carries the record's type, its `MUSICA name` or `None`, and its reactants; every non-branched variant carries the base products, empty without a `products` key |
| `ReactionListProperties.ParametersAreRecordValues` | src/acom_music_box/music_box_reaction_list.py:138-164 | each kinetic parameter of each variant is the record's value under exactly its own key, or `None` |
| `ReactionListProperties.BranchedProductLists` | src/acom_music_box/music_box_reaction_list.py:120-136 | for `WENNBERG_NO_RO2`, the alkoxy and nitrate lists are built in key order from their own mappings and are empty when the mapping is missing |
| `ReactionListProperties.DispatchDependsOnlyOnResultKeys` | src/acom_music_box/music_box_reaction_list.py:111-166 | two records that agree on the keys the tag reads give the same reaction; no other key is consulted |
| `ReactionListProperties.BranchedIgnoresBaseProducts` | src/acom_music_box/music_box_reaction_list.py:117-142 | for `WENNBERG_NO_RO2`, records that differ only in `products` give the same reaction: the base products are dropped |
| `ReactionListProperties.ReactionParticipantsResolved` | src/acom_music_box/music_box_reaction_list.py:91-136 | every participant of every variant holds a registry species or `None`, never a dangling reference |
| `ReactionListProperties.ReactantsFollowKeyOrder` | src/acom_music_box/music_box_reaction_list.py:90-95 | building the reactants of a mapping split in two gives the first half's reactants followed by the second half's |
| `ReactionListProperties.ExampleUnmatchedReactantKept` | src/acom_music_box/music_box_reaction_list.py:88-96 | `{"A": {"qty": 2}, "B": {}}` against a registry holding only A gives A with quantity 2, then an absent species with no quantity |

## Left out

- `from_config_JSON` (music_box_reaction_list.py:49-75) is not modelled. It
  builds file paths and reads two files, which is file I/O. When `camp-files`
  has at most one entry, it returns an empty list named `None` instead of
  failing.
- The classes `Reaction`, `Branched`, `Arrhenius`, `Tunneling`,
  `Troe_Ternary`, `Reactant`, `Product` and the species list come from
  modules that are not part of this model. They are plain records here,
  holding the arguments the source passes to them.
- Exceptions are not modelled as results. Every input on which the source
  raises is excluded by a precondition (see above).
- Aliasing is not modelled. The source keeps the very list object it is
  given (line 25), so `add_reaction` also changes the caller's list. Here
  the reactions are a value of type `seq`.
- Numeric meaning is not modelled. Kinetic parameters, quantities and yields
  are passed through as uninterpreted JSON values, as the source does.
- `IsParticipantMapping` and `IsUiDocument` also exclude malformed inputs
  that the source accepts, so the model says nothing about them:
  - Base reactant or product details that are a string not containing
    `qty` (for a product, `yield`), or a list not holding it
    (music_box_reaction_list.py:93, 105). The source's `in` test is then a
    substring or membership test that fails, so the amount is `None`. For
    example, `{"A": ""}` gives a reactant with no quantity and no error.
  - A `reactions` value that is an empty object or an empty string instead
    of an array (line 42). The source iterates it and returns an empty list.
- Duplicate keys are not modelled. JSON text with a repeated key cannot reach
  this core as two members, because `json.load` keeps one of them.
