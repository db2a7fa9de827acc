/**
 * The advanced search form (src/components/features/search/AdvancedSearch.tsx):
 * a filter record whose three list fields are edited by toggle buttons and
 * which is handed unchanged to the search callback.
 */
module AdvancedSearch {
  import opened Common

  datatype SearchFilters = SearchFilters(
    location: string,
    minPrice: int,
    maxPrice: int,
    bedrooms: seq<int>,
    propertyType: seq<string>,
    amenities: seq<string>,
    verifiedOnly: bool)

  const InitialSearchFilters: SearchFilters := SearchFilters("", 0, 10000000, [], [], [], false)

  /** The three lists hold no value twice. */
  predicate ListsNoDup(f: SearchFilters) {
    NoDup(f.bedrooms) && NoDup(f.propertyType) && NoDup(f.amenities)
  }

  /** `handleBedroomToggle`: only the bedroom list changes, and only at `count`. */
  function ToggleBedroom(f: SearchFilters, count: int): (r: SearchFilters)
    ensures count in r.bedrooms <==> count !in f.bedrooms
    ensures forall b :: b != count ==> (b in r.bedrooms <==> b in f.bedrooms)
    ensures r.(bedrooms := f.bedrooms) == f
  {
    f.(bedrooms := Toggle(f.bedrooms, count))
  }

  /** `handleTypeToggle`: only the property-type list changes, and only at `t`. */
  function ToggleType(f: SearchFilters, t: string): (r: SearchFilters)
    ensures t in r.propertyType <==> t !in f.propertyType
    ensures forall x :: x != t ==> (x in r.propertyType <==> x in f.propertyType)
    ensures r.(propertyType := f.propertyType) == f
  {
    f.(propertyType := Toggle(f.propertyType, t))
  }

  /** `handleAmenityToggle`: only the amenity list changes, and only at `a`. */
  function ToggleAmenity(f: SearchFilters, a: string): (r: SearchFilters)
    ensures a in r.amenities <==> a !in f.amenities
    ensures forall x :: x != a ==> (x in r.amenities <==> x in f.amenities)
    ensures r.(amenities := f.amenities) == f
  {
    f.(amenities := Toggle(f.amenities, a))
  }

  /** The toggles keep the lists duplicate-free. */
  lemma TogglesKeepNoDup(f: SearchFilters, count: int, t: string, a: string)
    requires ListsNoDup(f)
    ensures ListsNoDup(ToggleBedroom(f, count))
    ensures ListsNoDup(ToggleType(f, t))
    ensures ListsNoDup(ToggleAmenity(f, a))
  {
    ToggleNoDup(f.bedrooms, count);
    ToggleNoDup(f.propertyType, t);
    ToggleNoDup(f.amenities, a);
  }

  /** Toggling a value that was off and toggling it again gives back the same filters. */
  lemma ToggleTwiceRestores(f: SearchFilters, count: int, t: string, a: string)
    requires count !in f.bedrooms && t !in f.propertyType && a !in f.amenities
    ensures ToggleBedroom(ToggleBedroom(f, count), count) == f
    ensures ToggleType(ToggleType(f, t), t) == f
    ensures ToggleAmenity(ToggleAmenity(f, a), a) == f
  {
    ToggleAddThenRemove(f.bedrooms, count);
    ToggleAddThenRemove(f.propertyType, t);
    ToggleAddThenRemove(f.amenities, a);
  }

  /** The initial lists hold no duplicates; with TogglesKeepNoDup, no sequence of toggles creates one. */
  lemma InitialListsNoDup()
    ensures ListsNoDup(InitialSearchFilters)
  {
  }
}
