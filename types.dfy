/** Response envelope and error value (src/types/api.ts). */
module ApiTypes {
  import opened Common

  /**
   * The value a failed call rejects with. `code` is optional because the
   * client's own fallback value carries only a message.
   */
  datatype ApiError = ApiError(message: string, code: Option<string>, details: Option<map<string, string>>)

  /** The body every endpoint answers with: `{ data, message?, success }`. */
  datatype ApiResponse<T> = ApiResponse(data: T, message: Option<string>, success: bool)
}

/** Users and the session record (src/types/user.ts). */
module UserTypes {
  import opened Common

  datatype UserRole = Buyer | Seller | Agent | Admin

  datatype User = User(
    id: string,
    email: string,
    fullName: string,
    phone: Option<string>,
    avatar: Option<string>,
    role: UserRole,
    isVerified: bool,
    createdAt: string,
    updatedAt: string)

  datatype AuthState = AuthState(
    user: Option<User>,
    accessToken: Option<string>,
    refreshToken: Option<string>,
    isAuthenticated: bool,
    isLoading: bool)
}

/** Listings and the filter record (src/types/property.ts). */
module PropertyTypes {
  import opened Common

  datatype PropertyType = House | Apartment | Townhouse | Land | Commercial

  datatype PropertyStatus = Active | Pending | Sold | Rented

  datatype ListingType = Sale | Rent

  datatype PropertyImage = PropertyImage(id: string, url: string, isPrimary: bool, displayOrder: int)

  /** A listing; `createdAt` is a timestamp in milliseconds. */
  datatype Property = Property(
    id: string,
    title: string,
    description: string,
    propertyType: PropertyType,
    listingType: ListingType,
    price: int,
    bedrooms: int,
    bathrooms: int,
    squareMeters: int,
    address: string,
    neighborhood: string,
    city: string,
    status: PropertyStatus,
    images: seq<PropertyImage>,
    amenities: seq<string>,
    features: seq<string>,
    userId: string,
    createdAt: int,
    viewCount: int,
    isFeatured: bool)

  /** Every field optional; `None` is `undefined`. */
  datatype PropertyFilters = PropertyFilters(
    propertyType: Option<seq<PropertyType>>,
    listingType: Option<ListingType>,
    priceMin: Option<int>,
    priceMax: Option<int>,
    bedrooms: Option<seq<int>>,
    bathrooms: Option<seq<int>>,
    neighborhoods: Option<seq<string>>,
    amenities: Option<seq<string>>,
    searchQuery: Option<string>)
}
