/**
 * The record shapes of the travel-agency backend (backend/models.py): the status
 * enumerations, the stored documents, the create payloads with their defaults, the
 * all-optional package update, and the login token.
 *
 * A field with a default in a create payload is an `Option` here: `None` means the
 * client left the field out, and the constructor function fills in the default.
 * Clock readings are `Timestamp`s and fresh identifiers are `Id`s supplied by the caller.
 */
module Models {
  import opened Wrappers

  type Id = string
  /** A reading of `datetime.utcnow()`, abstracted to an integer. */
  type Timestamp = int

  // ---------------------------------------------------------------- enumerations
  // Each enumeration is a `str` enum: its values travel as the strings below, and
  // parsing a string accepts exactly those.

  datatype BookingStatus = Pending | Confirmed | Cancelled | Completed {
    function Name(): string {
      match this
      case Pending => "pending"
      case Confirmed => "confirmed"
      case Cancelled => "cancelled"
      case Completed => "completed"
    }
  }

  function ParseBookingStatus(s: string): (r: Option<BookingStatus>)
    ensures r.Some? ==> r.value.Name() == s
    ensures r.None? <==> forall b: BookingStatus :: b.Name() != s
  {
    if s == "pending" then Some(BookingStatus.Pending)
    else if s == "confirmed" then Some(BookingStatus.Confirmed)
    else if s == "cancelled" then Some(BookingStatus.Cancelled)
    else if s == "completed" then Some(BookingStatus.Completed)
    else None
  }

  datatype TestimonialStatus = Approved | Pending {
    function Name(): string {
      match this
      case Approved => "approved"
      case Pending => "pending"
    }
  }

  function ParseTestimonialStatus(s: string): (r: Option<TestimonialStatus>)
    ensures r.Some? ==> r.value.Name() == s
    ensures r.None? <==> forall t: TestimonialStatus :: t.Name() != s
  {
    if s == "approved" then Some(TestimonialStatus.Approved)
    else if s == "pending" then Some(TestimonialStatus.Pending)
    else None
  }

  datatype InquiryStatus = New | Replied | Closed {
    function Name(): string {
      match this
      case New => "new"
      case Replied => "replied"
      case Closed => "closed"
    }
  }

  function ParseInquiryStatus(s: string): (r: Option<InquiryStatus>)
    ensures r.Some? ==> r.value.Name() == s
    ensures r.None? <==> forall q: InquiryStatus :: q.Name() != s
  {
    if s == "new" then Some(New)
    else if s == "replied" then Some(Replied)
    else if s == "closed" then Some(Closed)
    else None
  }

  datatype PackageStatus = Active | Inactive {
    function Name(): string {
      match this
      case Active => "active"
      case Inactive => "inactive"
    }
  }

  function ParsePackageStatus(s: string): (r: Option<PackageStatus>)
    ensures r.Some? ==> r.value.Name() == s
    ensures r.None? <==> forall p: PackageStatus :: p.Name() != s
  {
    if s == "active" then Some(Active)
    else if s == "inactive" then Some(Inactive)
    else None
  }

  datatype TripType = OneWay | RoundTrip | Local {
    function Name(): string {
      match this
      case OneWay => "oneway"
      case RoundTrip => "roundtrip"
      case Local => "local"
    }
  }

  function ParseTripType(s: string): (r: Option<TripType>)
    ensures r.Some? ==> r.value.Name() == s
    ensures r.None? <==> forall t: TripType :: t.Name() != s
  {
    if s == "oneway" then Some(OneWay)
    else if s == "roundtrip" then Some(RoundTrip)
    else if s == "local" then Some(Local)
    else None
  }

  /** Every enumeration value survives being written as its string and parsed back. */
  lemma EnumRoundTrips(b: BookingStatus, t: TestimonialStatus, q: InquiryStatus, p: PackageStatus, y: TripType)
    ensures ParseBookingStatus(b.Name()) == Some(b)
    ensures ParseTestimonialStatus(t.Name()) == Some(t)
    ensures ParseInquiryStatus(q.Name()) == Some(q)
    ensures ParsePackageStatus(p.Name()) == Some(p)
    ensures ParseTripType(y.Name()) == Some(y)
  {
  }

  // ---------------------------------------------------------------- packages

  datatype ItineraryDay = ItineraryDay(day: int, title: string, description: string, activities: seq<string>)

  /** A stored tour package; `price` is a float and is never computed with. */
  datatype Package = Package(
    id: Id,
    title: string,
    description: string,
    duration: string,
    price: real,
    groupSize: string,
    image: string,
    images: seq<string>,
    highlights: seq<string>,
    itinerary: seq<ItineraryDay>,
    inclusions: seq<string>,
    exclusions: seq<string>,
    category: string,
    status: PackageStatus,
    createdAt: Timestamp,
    updatedAt: Timestamp)

  /** The create payload; the list fields and `category` may be left out. */
  datatype PackageCreate = PackageCreate(
    title: string,
    description: string,
    duration: string,
    price: real,
    groupSize: string,
    image: string,
    images: Option<seq<string>>,
    highlights: Option<seq<string>>,
    itinerary: Option<seq<ItineraryDay>>,
    inclusions: Option<seq<string>>,
    exclusions: Option<seq<string>>,
    category: Option<string>)

  /**
   * The update payload: every field but `updatedAt` is optional, and `None` means
   * "not supplied". There is no field for the id, the creation
   * time, or anything else a client could not change.
   */
  datatype PackageUpdate = PackageUpdate(
    title: Option<string>,
    description: Option<string>,
    duration: Option<string>,
    price: Option<real>,
    groupSize: Option<string>,
    image: Option<string>,
    images: Option<seq<string>>,
    highlights: Option<seq<string>>,
    itinerary: Option<seq<ItineraryDay>>,
    inclusions: Option<seq<string>>,
    exclusions: Option<seq<string>>,
    category: Option<string>,
    status: Option<PackageStatus>,
    updatedAt: Timestamp)

  /** `Package(**payload.dict())` with a fresh id and the clock reading `now`. */
  function NewPackage(c: PackageCreate, id: Id, now: Timestamp): (p: Package)
    ensures p.id == id && p.createdAt == now && p.updatedAt == now
    ensures p.status == Active
    ensures p.category == (if c.category.Some? then c.category.value else "standard")
    ensures p.images == (if c.images.Some? then c.images.value else [])
    ensures p.highlights == (if c.highlights.Some? then c.highlights.value else [])
    ensures p.itinerary == (if c.itinerary.Some? then c.itinerary.value else [])
    ensures p.inclusions == (if c.inclusions.Some? then c.inclusions.value else [])
    ensures p.exclusions == (if c.exclusions.Some? then c.exclusions.value else [])
    ensures p.title == c.title && p.description == c.description && p.duration == c.duration
    ensures p.price == c.price && p.groupSize == c.groupSize && p.image == c.image
  {
    Package(id, c.title, c.description, c.duration, c.price, c.groupSize, c.image,
            c.images.GetOr([]), c.highlights.GetOr([]), c.itinerary.GetOr([]),
            c.inclusions.GetOr([]), c.exclusions.GetOr([]), c.category.GetOr("standard"),
            Active, now, now)
  }

  // ---------------------------------------------------------------- bookings

  datatype Booking = Booking(
    id: Id,
    customerName: string,
    email: string,
    phone: string,
    packageId: Option<string>,
    packageTitle: string,
    travelDate: Timestamp,
    travelers: int,
    totalAmount: real,
    status: BookingStatus,
    specialRequests: string,
    bookingType: string,
    createdAt: Timestamp)

  datatype BookingCreate = BookingCreate(
    customerName: string,
    email: string,
    phone: string,
    packageId: Option<string>,
    packageTitle: string,
    travelDate: Timestamp,
    travelers: int,
    totalAmount: real,
    specialRequests: Option<string>,
    bookingType: Option<string>)

  function NewBooking(c: BookingCreate, id: Id, now: Timestamp): (b: Booking)
    ensures b.id == id && b.createdAt == now
    ensures b.status == BookingStatus.Pending
    ensures b.specialRequests == (if c.specialRequests.Some? then c.specialRequests.value else "")
    ensures b.bookingType == (if c.bookingType.Some? then c.bookingType.value else "package")
    ensures b.customerName == c.customerName && b.packageTitle == c.packageTitle && b.packageId == c.packageId
    ensures b.email == c.email && b.phone == c.phone && b.travelDate == c.travelDate
    ensures b.travelers == c.travelers && b.totalAmount == c.totalAmount
  {
    Booking(id, c.customerName, c.email, c.phone, c.packageId, c.packageTitle, c.travelDate,
            c.travelers, c.totalAmount, BookingStatus.Pending, c.specialRequests.GetOr(""),
            c.bookingType.GetOr("package"), now)
  }

  // ---------------------------------------------------------------- testimonials

  /** A star rating: `Field(ge=1, le=5)`. */
  type Rating = r: int | 1 <= r <= 5 witness 1

  /** A stored testimonial; its rating is in range by its type. */
  datatype Testimonial = Testimonial(
    id: Id,
    customerName: string,
    location: string,
    rating: Rating,
    review: string,
    packageName: string,
    date: string,
    images: seq<string>,
    status: TestimonialStatus,
    createdAt: Timestamp)

  /** The submitted payload, before the range check on `rating`. */
  datatype TestimonialCreate = TestimonialCreate(
    customerName: string,
    location: string,
    rating: int,
    review: string,
    packageName: string,
    date: string,
    images: Option<seq<string>>)

  datatype ValidationError = RatingOutOfRange(rating: int)

  /**
   * Validating the payload and building the stored testimonial: a rating outside
   * 1..5 is refused; an accepted one keeps every submitted field and starts `pending`.
   */
  function NewTestimonial(c: TestimonialCreate, id: Id, now: Timestamp): (r: Result<Testimonial, ValidationError>)
    ensures r.Ok? <==> 1 <= c.rating <= 5
    ensures r.Err? ==> r.error == RatingOutOfRange(c.rating)
    ensures r.Ok? ==> r.value.status == TestimonialStatus.Pending && r.value.id == id && r.value.createdAt == now
    ensures r.Ok? ==> r.value.rating == c.rating && r.value.customerName == c.customerName
                      && r.value.location == c.location && r.value.review == c.review
                      && r.value.packageName == c.packageName && r.value.date == c.date
                      && r.value.images == (if c.images.Some? then c.images.value else [])
  {
    if 1 <= c.rating <= 5 then
      Ok(Testimonial(id, c.customerName, c.location, c.rating, c.review, c.packageName, c.date,
                     c.images.GetOr([]), TestimonialStatus.Pending, now))
    else
      Err(RatingOutOfRange(c.rating))
  }

  // ---------------------------------------------------------------- cab bookings

  datatype CabBooking = CabBooking(
    id: Id,
    customerName: string,
    email: string,
    phone: string,
    pickupLocation: string,
    dropLocation: string,
    pickupDate: Timestamp,
    pickupTime: string,
    returnDate: Option<Timestamp>,
    returnTime: Option<string>,
    tripType: TripType,
    vehicleType: string,
    passengers: int,
    specialRequests: string,
    status: BookingStatus,
    estimatedCost: real,
    createdAt: Timestamp)

  datatype CabBookingCreate = CabBookingCreate(
    customerName: string,
    email: string,
    phone: string,
    pickupLocation: string,
    dropLocation: Option<string>,
    pickupDate: Timestamp,
    pickupTime: string,
    returnDate: Option<Timestamp>,
    returnTime: Option<string>,
    tripType: TripType,
    vehicleType: string,
    passengers: int,
    specialRequests: Option<string>)

  function NewCabBooking(c: CabBookingCreate, id: Id, now: Timestamp): (b: CabBooking)
    ensures b.id == id && b.createdAt == now
    ensures b.status == BookingStatus.Pending && b.estimatedCost == 0.0
    ensures b.dropLocation == (if c.dropLocation.Some? then c.dropLocation.value else "")
    ensures b.specialRequests == (if c.specialRequests.Some? then c.specialRequests.value else "")
    ensures b.tripType == c.tripType && b.returnDate == c.returnDate && b.pickupLocation == c.pickupLocation
    ensures b.customerName == c.customerName && b.email == c.email && b.phone == c.phone
    ensures b.pickupDate == c.pickupDate && b.pickupTime == c.pickupTime && b.returnTime == c.returnTime
    ensures b.vehicleType == c.vehicleType && b.passengers == c.passengers
  {
    CabBooking(id, c.customerName, c.email, c.phone, c.pickupLocation, c.dropLocation.GetOr(""),
               c.pickupDate, c.pickupTime, c.returnDate, c.returnTime, c.tripType, c.vehicleType,
               c.passengers, c.specialRequests.GetOr(""), BookingStatus.Pending, 0.0, now)
  }

  // ---------------------------------------------------------------- contact inquiries

  datatype ContactInquiry = ContactInquiry(
    id: Id,
    name: string,
    email: string,
    phone: string,
    subject: string,
    inquiryType: string,
    message: string,
    preferredContact: string,
    status: InquiryStatus,
    createdAt: Timestamp)

  datatype ContactCreate = ContactCreate(
    name: string,
    email: string,
    phone: string,
    subject: string,
    inquiryType: Option<string>,
    message: string,
    preferredContact: Option<string>)

  function NewContactInquiry(c: ContactCreate, id: Id, now: Timestamp): (q: ContactInquiry)
    ensures q.id == id && q.createdAt == now
    ensures q.status == New
    ensures q.inquiryType == (if c.inquiryType.Some? then c.inquiryType.value else "general")
    ensures q.preferredContact == (if c.preferredContact.Some? then c.preferredContact.value else "email")
    ensures q.message == c.message && q.subject == c.subject
    ensures q.name == c.name && q.email == c.email && q.phone == c.phone
  {
    ContactInquiry(id, c.name, c.email, c.phone, c.subject, c.inquiryType.GetOr("general"), c.message,
                   c.preferredContact.GetOr("email"), New, now)
  }

  // ---------------------------------------------------------------- gallery images

  datatype GalleryImage = GalleryImage(
    id: Id,
    title: string,
    description: string,
    imageUrl: string,
    category: string,
    tags: seq<string>,
    isActive: bool,
    createdAt: Timestamp)

  /** The record the upload handler builds: no tags, active. */
  function NewGalleryImage(title: string, description: string, imageUrl: string, category: string,
                           id: Id, now: Timestamp): (g: GalleryImage)
    ensures g.id == id && g.createdAt == now && g.imageUrl == imageUrl
    ensures g.isActive && g.tags == []
    ensures g.title == title && g.description == description && g.category == category
  {
    GalleryImage(id, title, description, imageUrl, category, [], true, now)
  }

  // ---------------------------------------------------------------- administrators

  datatype Admin = Admin(
    id: Id,
    username: string,
    passwordHash: string,
    email: string,
    isActive: bool,
    lastLogin: Option<Timestamp>,
    createdAt: Timestamp)

  datatype AdminLogin = AdminLogin(username: string, password: string)

  datatype TokenResponse = TokenResponse(access_token: string, token_type: string)

  /** `TokenResponse(access_token=token)`: the token type is left at its default. */
  function NewTokenResponse(token: string): (t: TokenResponse)
    ensures t.access_token == token && t.token_type == "bearer"
  {
    TokenResponse(token, "bearer")
  }

  // ---------------------------------------------------------------- dashboard

  /** One entry of the dashboard's recent-bookings list. */
  datatype BookingSummary = BookingSummary(id: Id, customer: string, package: string, date: Timestamp, status: BookingStatus)

  /** The dashboard figures; `monthlyRevenue` is a float and is never computed with. */
  datatype DashboardStats = DashboardStats(
    totalPackages: nat,
    activeBookings: nat,
    cabBookings: nat,
    customerReviews: nat,
    monthlyRevenue: real,
    recentBookings: seq<BookingSummary>)
}
