/**
 * The listing-filter store (src/store/filterStore.ts): a record of nine
 * optional fields, replaced as a whole by each operation.
 */
module FilterStore {
  import opened Common
  import opened PropertyTypes

  datatype FilterKey =
    | PropertyTypeKey | ListingTypeKey | PriceMinKey | PriceMaxKey | BedroomsKey
    | BathroomsKey | NeighborhoodsKey | AmenitiesKey | SearchQueryKey

  /** A key together with a value of that key's type (`None` is `undefined`). */
  datatype FilterEntry =
    | PropertyTypeEntry(types: Option<seq<PropertyType>>)
    | ListingTypeEntry(listing: Option<ListingType>)
    | PriceMinEntry(priceMin: Option<int>)
    | PriceMaxEntry(priceMax: Option<int>)
    | BedroomsEntry(bedrooms: Option<seq<int>>)
    | BathroomsEntry(bathrooms: Option<seq<int>>)
    | NeighborhoodsEntry(neighborhoods: Option<seq<string>>)
    | AmenitiesEntry(amenities: Option<seq<string>>)
    | SearchQueryEntry(query: Option<string>)

  function KeyOf(e: FilterEntry): FilterKey {
    match e
    case PropertyTypeEntry(_) => PropertyTypeKey
    case ListingTypeEntry(_) => ListingTypeKey
    case PriceMinEntry(_) => PriceMinKey
    case PriceMaxEntry(_) => PriceMaxKey
    case BedroomsEntry(_) => BedroomsKey
    case BathroomsEntry(_) => BathroomsKey
    case NeighborhoodsEntry(_) => NeighborhoodsKey
    case AmenitiesEntry(_) => AmenitiesKey
    case SearchQueryEntry(_) => SearchQueryKey
  }

  /** `filters[k]`, paired with its key. */
  function Get(f: PropertyFilters, k: FilterKey): (e: FilterEntry)
    ensures KeyOf(e) == k
  {
    match k
    case PropertyTypeKey => PropertyTypeEntry(f.propertyType)
    case ListingTypeKey => ListingTypeEntry(f.listingType)
    case PriceMinKey => PriceMinEntry(f.priceMin)
    case PriceMaxKey => PriceMaxEntry(f.priceMax)
    case BedroomsKey => BedroomsEntry(f.bedrooms)
    case BathroomsKey => BathroomsEntry(f.bathrooms)
    case NeighborhoodsKey => NeighborhoodsEntry(f.neighborhoods)
    case AmenitiesKey => AmenitiesEntry(f.amenities)
    case SearchQueryKey => SearchQueryEntry(f.searchQuery)
  }

  /** The entry that sets key `k` to `undefined`. */
  function Undefined(k: FilterKey): (e: FilterEntry)
    ensures KeyOf(e) == k
  {
    match k
    case PropertyTypeKey => PropertyTypeEntry(None)
    case ListingTypeKey => ListingTypeEntry(None)
    case PriceMinKey => PriceMinEntry(None)
    case PriceMaxKey => PriceMaxEntry(None)
    case BedroomsKey => BedroomsEntry(None)
    case BathroomsKey => BathroomsEntry(None)
    case NeighborhoodsKey => NeighborhoodsEntry(None)
    case AmenitiesKey => AmenitiesEntry(None)
    case SearchQueryKey => SearchQueryEntry(None)
  }

  /** Two filter records are equal when they agree on every key. */
  lemma FiltersExtensional(a: PropertyFilters, b: PropertyFilters)
    requires forall k :: Get(a, k) == Get(b, k)
    ensures a == b
  {
    assert Get(a, PropertyTypeKey) == Get(b, PropertyTypeKey);
    assert Get(a, ListingTypeKey) == Get(b, ListingTypeKey);
    assert Get(a, PriceMinKey) == Get(b, PriceMinKey);
    assert Get(a, PriceMaxKey) == Get(b, PriceMaxKey);
    assert Get(a, BedroomsKey) == Get(b, BedroomsKey);
    assert Get(a, BathroomsKey) == Get(b, BathroomsKey);
    assert Get(a, NeighborhoodsKey) == Get(b, NeighborhoodsKey);
    assert Get(a, AmenitiesKey) == Get(b, AmenitiesKey);
    assert Get(a, SearchQueryKey) == Get(b, SearchQueryKey);
  }

  const InitialFilters: PropertyFilters := PropertyFilters(None, None, None, None, None, None, None, None, None)

  /** Every field of the initial record is `undefined`. */
  lemma InitialFiltersUndefined(k: FilterKey)
    ensures Get(InitialFilters, k) == Undefined(k)
  {
  }

  /** `{ ...filters, [key]: value }` */
  function SetEntry(f: PropertyFilters, e: FilterEntry): (r: PropertyFilters)
    ensures Get(r, KeyOf(e)) == e
    ensures forall k :: k != KeyOf(e) ==> Get(r, k) == Get(f, k)
  {
    match e
    case PropertyTypeEntry(v) => f.(propertyType := v)
    case ListingTypeEntry(v) => f.(listingType := v)
    case PriceMinEntry(v) => f.(priceMin := v)
    case PriceMaxEntry(v) => f.(priceMax := v)
    case BedroomsEntry(v) => f.(bedrooms := v)
    case BathroomsEntry(v) => f.(bathrooms := v)
    case NeighborhoodsEntry(v) => f.(neighborhoods := v)
    case AmenitiesEntry(v) => f.(amenities := v)
    case SearchQueryEntry(v) => f.(searchQuery := v)
  }

  /**
   * `Partial<PropertyFilters>`: `None` is a key the patch does not mention,
   * `Some(None)` a key mentioned with the value `undefined`.
   */
  datatype FilterPatch = FilterPatch(
    propertyType: Option<Option<seq<PropertyType>>>,
    listingType: Option<Option<ListingType>>,
    priceMin: Option<Option<int>>,
    priceMax: Option<Option<int>>,
    bedrooms: Option<Option<seq<int>>>,
    bathrooms: Option<Option<seq<int>>>,
    neighborhoods: Option<Option<seq<string>>>,
    amenities: Option<Option<seq<string>>>,
    searchQuery: Option<Option<string>>)

  const EmptyFilterPatch: FilterPatch := FilterPatch(None, None, None, None, None, None, None, None, None)

  /** What the patch says about key `k`, if it mentions it. */
  function PatchEntry(p: FilterPatch, k: FilterKey): (r: Option<FilterEntry>)
    ensures r.Some? ==> KeyOf(r.value) == k
  {
    match k
    case PropertyTypeKey => if p.propertyType.Some? then Some(PropertyTypeEntry(p.propertyType.value)) else None
    case ListingTypeKey => if p.listingType.Some? then Some(ListingTypeEntry(p.listingType.value)) else None
    case PriceMinKey => if p.priceMin.Some? then Some(PriceMinEntry(p.priceMin.value)) else None
    case PriceMaxKey => if p.priceMax.Some? then Some(PriceMaxEntry(p.priceMax.value)) else None
    case BedroomsKey => if p.bedrooms.Some? then Some(BedroomsEntry(p.bedrooms.value)) else None
    case BathroomsKey => if p.bathrooms.Some? then Some(BathroomsEntry(p.bathrooms.value)) else None
    case NeighborhoodsKey => if p.neighborhoods.Some? then Some(NeighborhoodsEntry(p.neighborhoods.value)) else None
    case AmenitiesKey => if p.amenities.Some? then Some(AmenitiesEntry(p.amenities.value)) else None
    case SearchQueryKey => if p.searchQuery.Some? then Some(SearchQueryEntry(p.searchQuery.value)) else None
  }

  function PickField<T>(p: Option<T>, current: T): T {
    if p.Some? then p.value else current
  }

  /** `{ ...filters, ...patch }` */
  function Overlay(f: PropertyFilters, p: FilterPatch): (r: PropertyFilters)
    ensures forall k :: Get(r, k) == if PatchEntry(p, k).Some? then PatchEntry(p, k).value else Get(f, k)
  {
    PropertyFilters(
      PickField(p.propertyType, f.propertyType), PickField(p.listingType, f.listingType),
      PickField(p.priceMin, f.priceMin), PickField(p.priceMax, f.priceMax),
      PickField(p.bedrooms, f.bedrooms), PickField(p.bathrooms, f.bathrooms),
      PickField(p.neighborhoods, f.neighborhoods), PickField(p.amenities, f.amenities),
      PickField(p.searchQuery, f.searchQuery))
  }

  /** The patch that mentions exactly one key. */
  function SinglePatch(e: FilterEntry): (p: FilterPatch)
    ensures PatchEntry(p, KeyOf(e)) == Some(e)
    ensures forall k :: k != KeyOf(e) ==> PatchEntry(p, k).None?
  {
    match e
    case PropertyTypeEntry(v) => EmptyFilterPatch.(propertyType := Some(v))
    case ListingTypeEntry(v) => EmptyFilterPatch.(listingType := Some(v))
    case PriceMinEntry(v) => EmptyFilterPatch.(priceMin := Some(v))
    case PriceMaxEntry(v) => EmptyFilterPatch.(priceMax := Some(v))
    case BedroomsEntry(v) => EmptyFilterPatch.(bedrooms := Some(v))
    case BathroomsEntry(v) => EmptyFilterPatch.(bathrooms := Some(v))
    case NeighborhoodsEntry(v) => EmptyFilterPatch.(neighborhoods := Some(v))
    case AmenitiesEntry(v) => EmptyFilterPatch.(amenities := Some(v))
    case SearchQueryEntry(v) => EmptyFilterPatch.(searchQuery := Some(v))
  }

  /** Overlaying a one-key patch is setting that key; overlaying the empty patch changes nothing. */
  lemma OverlaySingleIsSet(f: PropertyFilters, e: FilterEntry)
    ensures Overlay(f, SinglePatch(e)) == SetEntry(f, e)
    ensures Overlay(f, EmptyFilterPatch) == f
  {
    FiltersExtensional(Overlay(f, SinglePatch(e)), SetEntry(f, e));
  }

  /** Clearing a key sets it to `undefined` and leaves the other keys alone. */
  lemma ClearIsSetUndefined(f: PropertyFilters, k: FilterKey)
    ensures Get(SetEntry(f, Undefined(k)), k) == Undefined(k)
    ensures forall j :: j != k ==> Get(SetEntry(f, Undefined(k)), j) == Get(f, j)
  {
  }

  class Store {
    var filters: PropertyFilters

    constructor()
      ensures filters == InitialFilters
    {
      filters := InitialFilters;
    }

    method SetFilter(e: FilterEntry)
      modifies this
      ensures filters == SetEntry(old(filters), e)
    {
      filters := SetEntry(filters, e);
    }

    method SetFilters(p: FilterPatch)
      modifies this
      ensures filters == Overlay(old(filters), p)
    {
      filters := Overlay(filters, p);
    }

    method ResetFilters()
      modifies this
      ensures filters == InitialFilters
    {
      filters := InitialFilters;
    }

    method ClearFilter(k: FilterKey)
      modifies this
      ensures filters == SetEntry(old(filters), Undefined(k))
    {
      filters := SetEntry(filters, Undefined(k));
    }
  }
}
