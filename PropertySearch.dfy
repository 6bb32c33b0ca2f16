/** The property list's search box: a blank query shows every property;
    any other query shows, in list order, the properties whose name,
    address, renter name or electricity code number contains it, ignoring
    case. */
module PropertySearch {
  import opened Wrappers
  import opened Domain
  import opened Tables
  import opened Text

  /** `field?.contains(q, ignoreCase = true) == true`: an absent field
      never matches. */
  predicate OptionalContains(field: Option<string>, q: string)
  {
    field.Some? && ContainsIgnoreCase(field.value, q)
  }

  predicate MatchesQuery(p: Property, q: string)
  {
    ContainsIgnoreCase(p.name, q) || ContainsIgnoreCase(p.address, q)
    || OptionalContains(p.renterName, q) || OptionalContains(p.electricityCodeNumber, q)
  }

  function QueryFilter(q: string): Property -> bool
  {
    p => MatchesQuery(p, q)
  }

  /** `filteredProperties`. */
  function FilteredProperties(properties: seq<Property>, q: string): (r: seq<Property>)
    ensures IsBlank(q) ==> r == properties
    ensures IsSublist(r, properties)
    ensures !IsBlank(q) ==> forall p :: p in r <==> p in properties && MatchesQuery(p, q)
    ensures !IsBlank(q) ==> forall p :: multiset(r)[p] == if MatchesQuery(p, q) then multiset(properties)[p] else 0
  {
    if IsBlank(q) then
      SublistRefl(properties);
      properties
    else
      forall p ensures multiset(Where(properties, QueryFilter(q)))[p]
        == if MatchesQuery(p, q) then multiset(properties)[p] else 0 {
        WhereCounts(properties, QueryFilter(q), p);
      }
      WhereMembers(properties, QueryFilter(q));
      WhereSublist(properties, QueryFilter(q));
      Where(properties, QueryFilter(q))
  }

  /** An absent renter name or code number contributes nothing: such a
      property is found only through its name or its address. */
  lemma AbsentFieldsNeverMatch(p: Property, q: string)
    requires p.renterName.None? && p.electricityCodeNumber.None?
    ensures MatchesQuery(p, q) <==> ContainsIgnoreCase(p.name, q) || ContainsIgnoreCase(p.address, q)
  {
  }

  /** Searching the result again with the same query changes nothing. */
  lemma SearchIdempotent(properties: seq<Property>, q: string)
    ensures FilteredProperties(FilteredProperties(properties, q), q) == FilteredProperties(properties, q)
  {
    if !IsBlank(q) {
      WhereWhereSame(properties, QueryFilter(q));
    }
  }

  /** A property is found by its exact name, in any letter case. */
  lemma FoundByName(properties: seq<Property>, i: nat)
    requires i < |properties|
    ensures properties[i] in FilteredProperties(properties, properties[i].name)
  {
    ContainsItself(properties[i].name);
  }

  /** A property is found by any part of its address. */
  lemma FoundByAddressPart(properties: seq<Property>, i: nat, pre: string, q: string, post: string)
    requires i < |properties| && properties[i].address == pre + q + post
    ensures properties[i] in FilteredProperties(properties, q)
  {
    ContainsInside(pre, q, post);
  }
}
