/**
 * The request handlers of backend/server.py over an in-memory database.
 *
 * Each collection is a map from document id to document; `Database.Valid()` says every
 * document is filed under its own id and administrator usernames are unique (the
 * unique index of backend/database.py). The handlers are methods doing what the
 * Python handlers do, one awaited store call after another; they take the fresh ids,
 * the clock reading, the password check and the token signer as parameters.
 */
module Server {
  import opened Wrappers
  import opened Models
  import opened Query

  /** The HTTP errors the handlers raise, with their `detail` texts. */
  datatype HttpError =
    | BadRequest(detail: string)
    | Unauthorized(detail: string)
    | NotFound(detail: string)
    | Unprocessable      // a request body the pydantic model refuses
    | Internal(detail: string)
  {
    function Code(): nat {
      match this
      case BadRequest(_) => 400
      case Unauthorized(_) => 401
      case NotFound(_) => 404
      case Unprocessable => 422
      case Internal(_) => 500
    }
  }

  /** The reply of a successful upload. */
  datatype UploadReply = UploadReply(message: string, imageId: Id, imageUrl: string)

  // ---------------------------------------------------------------- filters and sort keys

  function IsPublicPackage(p: Package): bool { p.status == Active }
  function AnyPackage(p: Package): bool { true }
  function PackageCreated(p: Package): Timestamp { p.createdAt }

  function IsApproved(t: Testimonial): bool { t.status == Approved }
  function TestimonialCreated(t: Testimonial): Timestamp { t.createdAt }

  function IsConfirmed(b: Booking): bool { b.status == Confirmed }
  function AnyBooking(b: Booking): bool { true }
  function BookingCreated(b: Booking): Timestamp { b.createdAt }

  function AdminKey(a: Admin): Id { a.id }
  function PackageKey(p: Package): Id { p.id }
  function BookingKey(b: Booking): Id { b.id }
  function TestimonialKey(t: Testimonial): Id { t.id }
  function CabBookingKey(c: CabBooking): Id { c.id }
  function InquiryKey(q: ContactInquiry): Id { q.id }
  function ImageKey(g: GalleryImage): Id { g.id }

  /** Every document is filed under its own id. */
  ghost predicate Keyed<T>(docs: map<Id, T>, key: T -> Id)
  {
    forall k :: k in docs ==> key(docs[k]) == k
  }

  lemma KeyedInjective<T>(docs: map<Id, T>, key: T -> Id)
    requires Keyed(docs, key)
    ensures Injective(docs)
  {
    forall k1, k2 | k1 in docs && k2 in docs && k1 != k2 ensures docs[k1] != docs[k2] {
      assert key(docs[k1]) != key(docs[k2]);
    }
  }

  lemma KeyedInsert<T>(docs: map<Id, T>, key: T -> Id, v: T)
    requires Keyed(docs, key)
    ensures Keyed(docs[key(v) := v], key)
  {
  }

  ghost predicate UniqueUsernames(admins: map<Id, Admin>)
  {
    forall k1, k2 :: k1 in admins && k2 in admins && admins[k1].username == admins[k2].username ==> k1 == k2
  }

  /** `admins.find_one({"username": username})`: the one administrator with that name, if any. */
  function FindAdmin(admins: map<Id, Admin>, username: string): (r: Option<Id>)
    requires UniqueUsernames(admins)
    ensures r.Some? <==> exists k :: k in admins && admins[k].username == username
    ensures r.Some? ==> r.value in admins && admins[r.value].username == username
  {
    if exists k :: k in admins && admins[k].username == username then
      var k :| k in admins && admins[k].username == username;
      Some(k)
    else
      None
  }

  // ---------------------------------------------------------------- partial update

  /** The later of two optional values: the second one if it was supplied. */
  function Later<T>(a: Option<T>, b: Option<T>): Option<T>
  {
    if b.Some? then b else a
  }

  /**
   * `$set` with the non-None fields of the payload plus the server's `updatedAt`.
   * The payload's own `updatedAt` is overwritten by the handler's clock reading.
   */
  function ApplyUpdate(p: Package, u: PackageUpdate, now: Timestamp): (r: Package)
    ensures r.id == p.id && r.createdAt == p.createdAt && r.updatedAt == now
    ensures r.status == (if u.status.Some? then u.status.value else p.status)
    ensures r.title == (if u.title.Some? then u.title.value else p.title)
    ensures r.description == (if u.description.Some? then u.description.value else p.description)
    ensures r.duration == (if u.duration.Some? then u.duration.value else p.duration)
    ensures r.price == (if u.price.Some? then u.price.value else p.price)
    ensures r.groupSize == (if u.groupSize.Some? then u.groupSize.value else p.groupSize)
    ensures r.image == (if u.image.Some? then u.image.value else p.image)
    ensures r.images == (if u.images.Some? then u.images.value else p.images)
    ensures r.highlights == (if u.highlights.Some? then u.highlights.value else p.highlights)
    ensures r.itinerary == (if u.itinerary.Some? then u.itinerary.value else p.itinerary)
    ensures r.inclusions == (if u.inclusions.Some? then u.inclusions.value else p.inclusions)
    ensures r.exclusions == (if u.exclusions.Some? then u.exclusions.value else p.exclusions)
    ensures r.category == (if u.category.Some? then u.category.value else p.category)
  {
    p.(title := u.title.GetOr(p.title),
       description := u.description.GetOr(p.description),
       duration := u.duration.GetOr(p.duration),
       price := u.price.GetOr(p.price),
       groupSize := u.groupSize.GetOr(p.groupSize),
       image := u.image.GetOr(p.image),
       images := u.images.GetOr(p.images),
       highlights := u.highlights.GetOr(p.highlights),
       itinerary := u.itinerary.GetOr(p.itinerary),
       inclusions := u.inclusions.GetOr(p.inclusions),
       exclusions := u.exclusions.GetOr(p.exclusions),
       category := u.category.GetOr(p.category),
       status := u.status.GetOr(p.status),
       updatedAt := now)
  }

  /** The update that supplies nothing. */
  function EmptyUpdate(stamp: Timestamp): PackageUpdate
  {
    PackageUpdate(None, None, None, None, None, None, None, None, None, None, None, None, None, stamp)
  }

  /** One update followed by another, as a single update: the second one's supplied fields win. */
  function Merge(u1: PackageUpdate, u2: PackageUpdate): PackageUpdate
  {
    PackageUpdate(Later(u1.title, u2.title), Later(u1.description, u2.description),
                  Later(u1.duration, u2.duration), Later(u1.price, u2.price),
                  Later(u1.groupSize, u2.groupSize), Later(u1.image, u2.image),
                  Later(u1.images, u2.images), Later(u1.highlights, u2.highlights),
                  Later(u1.itinerary, u2.itinerary), Later(u1.inclusions, u2.inclusions),
                  Later(u1.exclusions, u2.exclusions), Later(u1.category, u2.category),
                  Later(u1.status, u2.status), u2.updatedAt)
  }

  /** An update that supplies nothing still stamps `updatedAt`, and changes nothing else. */
  lemma EmptyUpdateOnlyStamps(p: Package, stamp: Timestamp, now: Timestamp)
    ensures ApplyUpdate(p, EmptyUpdate(stamp), now) == p.(updatedAt := now)
  {
  }

  /** Applying the same update again changes nothing but the time stamp. */
  lemma UpdateIdempotent(p: Package, u: PackageUpdate, t1: Timestamp, t2: Timestamp)
    ensures ApplyUpdate(ApplyUpdate(p, u, t1), u, t2) == ApplyUpdate(p, u, t2)
  {
  }

  /** Two updates in a row are the merged update: each field ends with its last supplied value. */
  lemma UpdateMerge(p: Package, u1: PackageUpdate, u2: PackageUpdate, t1: Timestamp, t2: Timestamp)
    ensures ApplyUpdate(ApplyUpdate(p, u1, t1), u2, t2) == ApplyUpdate(p, Merge(u1, u2), t2)
  {
  }

  /** Whether an updated package is public depends only on the supplied status, if one was supplied. */
  lemma UpdateVisibility(p: Package, u: PackageUpdate, now: Timestamp)
    ensures IsPublicPackage(ApplyUpdate(p, u, now)) <==>
              (if u.status.Some? then u.status.value == Active else IsPublicPackage(p))
  {
  }

  // ---------------------------------------------------------------- upload

  /** `content_type.startswith("image/")` */
  function IsImageType(contentType: string): (r: bool)
    ensures r <==> "image/" <= contentType
  {
    |contentType| >= 6 && contentType[..6] == "image/"
  }

  /** `filename.split(".")[-1]`: the last of the dot-separated pieces of the name. */
  function Extension(name: string): (r: string)
    ensures |r| <= |name|
  {
    if name == [] || name[|name| - 1] == '.' then
      []
    else
      Extension(name[..|name| - 1]) + [name[|name| - 1]]
  }

  /**
   * The extension is the text after the last dot: a dot-free suffix of the name,
   * preceded by a dot unless it is the whole name.
   */
  lemma {:induction false} ExtensionIsLastPiece(name: string)
    ensures var r := Extension(name);
      && |r| <= |name| && name[|name| - |r|..] == r
      && (forall i :: 0 <= i < |r| ==> r[i] != '.')
      && (|r| < |name| ==> name[|name| - |r| - 1] == '.')
    decreases |name|
  {
    if !(name == [] || name[|name| - 1] == '.') {
      var front := name[..|name| - 1];
      ExtensionIsLastPiece(front);
      assert name == front + [name[|name| - 1]];
    }
  }

  /** The extension read back from a name built as `stem + "." + ext` is `ext`. */
  lemma {:induction false} ExtensionOfDottedName(stem: string, ext: string)
    requires forall i :: 0 <= i < |ext| ==> ext[i] != '.'
    ensures Extension(stem + "." + ext) == ext
    decreases |ext|
  {
    var name := stem + "." + ext;
    if ext != [] {
      var shorter := ext[..|ext| - 1];
      assert name[..|name| - 1] == stem + "." + shorter;
      ExtensionOfDottedName(stem, shorter);
      assert ext == shorter + [ext[|ext| - 1]];
    }
  }

  /** The stored file name: a fresh uuid, a dot, and the uploaded file's extension. */
  function StoredName(fileId: string, filename: string): (r: string)
    ensures |r| == |fileId| + 1 + |Extension(filename)|
    ensures r[..|fileId|] == fileId && r[|fileId|] == '.'
  {
    fileId + "." + Extension(filename)
  }

  // ---------------------------------------------------------------- dashboard

  /** The dashboard's view of a booking: id, customer, package title, date and status. */
  function Summary(b: Booking): BookingSummary
  {
    BookingSummary(b.id, b.customerName, b.packageTitle, b.createdAt, b.status)
  }

  /**
   * The recent-bookings list, one summary per booking in the same order: a
   * newest-first list of bookings gives a newest-first list of summaries.
   */
  function Summaries(bs: seq<Booking>): (r: seq<BookingSummary>)
    ensures |r| == |bs|
    ensures (forall i, j :: 0 <= i < j < |bs| ==> bs[i].createdAt >= bs[j].createdAt) ==>
              forall i, j :: 0 <= i < j < |r| ==> r[i].date >= r[j].date
  {
    seq(|bs|, i requires 0 <= i < |bs| => Summary(bs[i]))
  }

  /** The stored file name keeps the uploaded file's extension. */
  lemma StoredNameKeepsExtension(fileId: string, filename: string)
    ensures Extension(StoredName(fileId, filename)) == Extension(filename)
  {
    ExtensionIsLastPiece(filename);
    ExtensionOfDottedName(fileId, Extension(filename));
  }

  /** The dashboard's fixed revenue figure. */
  const MonthlyRevenue: real := 125000.0

  // ---------------------------------------------------------------- the database

  class Database {
    var admins: map<Id, Admin>
    var packages: map<Id, Package>
    var bookings: map<Id, Booking>
    var testimonials: map<Id, Testimonial>
    var cabBookings: map<Id, CabBooking>
    var inquiries: map<Id, ContactInquiry>
    var gallery: map<Id, GalleryImage>
    /** The names of the files under the upload directory. */
    var uploads: set<string>

    ghost predicate Valid()
      reads this
    {
      && Keyed(admins, AdminKey) && UniqueUsernames(admins)
      && Keyed(packages, PackageKey)
      && Keyed(bookings, BookingKey)
      && Keyed(testimonials, TestimonialKey)
      && Keyed(cabBookings, CabBookingKey)
      && Keyed(inquiries, InquiryKey)
      && Keyed(gallery, ImageKey)
    }

    /** A database whose only documents are the seeded administrators. */
    constructor (seed: map<Id, Admin>)
      requires Keyed(seed, AdminKey) && UniqueUsernames(seed)
      ensures Valid()
      ensures admins == seed && packages == map[] && bookings == map[] && testimonials == map[]
      ensures cabBookings == map[] && inquiries == map[] && gallery == map[] && uploads == {}
    {
      admins, packages, bookings, testimonials := seed, map[], map[], map[];
      cabBookings, inquiries, gallery, uploads := map[], map[], map[], {};
    }

    // -------------------------------------------------------------- authentication

    /**
     * POST /auth/login. `verify` stands for the password-hash check and `issue` for
     * signing a token from the subject and the administrator's id.
     */
    method AdminLogin(login: Models.AdminLogin, verify: (string, string) -> bool,
                      issue: (string, Id) -> string, now: Timestamp)
      returns (r: Result<TokenResponse, HttpError>)
      requires Valid()
      modifies this`admins
      ensures Valid()
      ensures var found := FindAdmin(old(admins), login.username);
        && (r.Ok? <==> found.Some? && verify(login.password, old(admins)[found.value].passwordHash))
        && (r.Err? ==> r.error == Unauthorized("Invalid username or password") && admins == old(admins))
        && (r.Ok? ==> admins == old(admins)[found.value := old(admins)[found.value].(lastLogin := Some(now))]
                      && r.value == NewTokenResponse(issue(login.username, found.value)))
    {
      var found := FindAdmin(admins, login.username);
      if found.None? || !verify(login.password, admins[found.value].passwordHash) {
        return Err(Unauthorized("Invalid username or password"));
      }
      var id := found.value;
      var admin := admins[id];
      admins := admins[id := admin.(lastLogin := Some(now))];
      r := Ok(NewTokenResponse(issue(admin.username, id)));
    }

    // -------------------------------------------------------------- packages

    /** GET /packages: the active packages, newest first, at most 100. */
    method GetPackages() returns (r: seq<Package>)
      requires Valid()
      ensures IsCursor(r, packages, IsPublicPackage, PackageCreated, 100)
    {
      KeyedInjective(packages, PackageKey);
      r := Find(packages, IsPublicPackage, PackageCreated, 100);
    }

    /** GET /packages/{id}: found only when the package exists and is active. */
    method GetPackageById(id: Id) returns (r: Result<Package, HttpError>)
      requires Valid()
      ensures r.Ok? <==> id in packages && IsPublicPackage(packages[id])
      ensures r.Ok? ==> r.value == packages[id] && r.value.id == id
      ensures r.Err? ==> r.error == NotFound("Package not found")
    {
      if id in packages && packages[id].status == Active {
        r := Ok(packages[id]);
      } else {
        r := Err(NotFound("Package not found"));
      }
    }

    /** GET /admin/packages: packages of every status, newest first, at most 1000. */
    method AdminGetPackages() returns (r: seq<Package>)
      requires Valid()
      ensures IsCursor(r, packages, AnyPackage, PackageCreated, 1000)
    {
      KeyedInjective(packages, PackageKey);
      r := Find(packages, AnyPackage, PackageCreated, 1000);
    }

    /** POST /admin/packages. An id already in use makes the insert fail (500). */
    method CreatePackage(c: PackageCreate, newId: Id, now: Timestamp) returns (r: Result<Package, HttpError>)
      requires Valid()
      modifies this`packages
      ensures Valid()
      ensures newId in old(packages) ==> r == Err(Internal("Failed to create package")) && packages == old(packages)
      ensures newId !in old(packages) ==>
                r == Ok(NewPackage(c, newId, now)) && packages == old(packages)[newId := NewPackage(c, newId, now)]
    {
      if newId in packages {
        return Err(Internal("Failed to create package"));
      }
      var p := NewPackage(c, newId, now);
      packages := packages[newId := p];
      r := Ok(p);
    }

    /** PUT /admin/packages/{id}: 404 for an unknown id, otherwise the supplied fields and `updatedAt` change. */
    method UpdatePackage(id: Id, u: PackageUpdate, now: Timestamp) returns (r: Result<Package, HttpError>)
      requires Valid()
      modifies this`packages
      ensures Valid()
      ensures id !in old(packages) ==> r == Err(NotFound("Package not found")) && packages == old(packages)
      ensures id in old(packages) ==>
                && packages == old(packages)[id := ApplyUpdate(old(packages)[id], u, now)]
                && r == Ok(packages[id])
    {
      if id !in packages {
        return Err(NotFound("Package not found"));
      }
      packages := packages[id := ApplyUpdate(packages[id], u, now)];
      r := Ok(packages[id]);
    }

    /** DELETE /admin/packages/{id}: 404 when nothing was deleted. */
    method DeletePackage(id: Id) returns (r: Result<string, HttpError>)
      requires Valid()
      modifies this`packages
      ensures Valid()
      ensures id !in old(packages) ==> r == Err(NotFound("Package not found")) && packages == old(packages)
      ensures id in old(packages) ==> r == Ok("Package deleted successfully") && packages == old(packages) - {id}
    {
      if id !in packages {
        return Err(NotFound("Package not found"));
      }
      packages := packages - {id};
      r := Ok("Package deleted successfully");
    }

    // -------------------------------------------------------------- bookings

    /** POST /bookings */
    method CreateBooking(c: BookingCreate, newId: Id, now: Timestamp) returns (r: Result<Booking, HttpError>)
      requires Valid()
      modifies this`bookings
      ensures Valid()
      ensures newId in old(bookings) ==> r == Err(Internal("Failed to create booking")) && bookings == old(bookings)
      ensures newId !in old(bookings) ==>
                r == Ok(NewBooking(c, newId, now)) && bookings == old(bookings)[newId := NewBooking(c, newId, now)]
    {
      if newId in bookings {
        return Err(Internal("Failed to create booking"));
      }
      var b := NewBooking(c, newId, now);
      bookings := bookings[newId := b];
      r := Ok(b);
    }

    /** GET /admin/bookings: every booking, newest first, at most 1000. */
    method AdminGetBookings() returns (r: seq<Booking>)
      requires Valid()
      ensures IsCursor(r, bookings, AnyBooking, BookingCreated, 1000)
    {
      KeyedInjective(bookings, BookingKey);
      r := Find(bookings, AnyBooking, BookingCreated, 1000);
    }

    // -------------------------------------------------------------- testimonials

    /** GET /testimonials: the approved testimonials, newest first, at most 100. */
    method GetTestimonials() returns (r: seq<Testimonial>)
      requires Valid()
      ensures IsCursor(r, testimonials, IsApproved, TestimonialCreated, 100)
    {
      KeyedInjective(testimonials, TestimonialKey);
      r := Find(testimonials, IsApproved, TestimonialCreated, 100);
    }

    /** POST /testimonials: a rating outside 1..5 is refused (422) before anything is stored. */
    method CreateTestimonial(c: TestimonialCreate, newId: Id, now: Timestamp) returns (r: Result<Testimonial, HttpError>)
      requires Valid()
      modifies this`testimonials
      ensures Valid()
      ensures !(1 <= c.rating <= 5) ==> r == Err(Unprocessable) && testimonials == old(testimonials)
      ensures 1 <= c.rating <= 5 && newId in old(testimonials) ==>
                r == Err(Internal("Failed to create testimonial")) && testimonials == old(testimonials)
      ensures 1 <= c.rating <= 5 && newId !in old(testimonials) ==>
                && r == Ok(NewTestimonial(c, newId, now).value)
                && testimonials == old(testimonials)[newId := r.value]
    {
      var made := NewTestimonial(c, newId, now);
      if made.Err? {
        return Err(Unprocessable);
      }
      if newId in testimonials {
        return Err(Internal("Failed to create testimonial"));
      }
      testimonials := testimonials[newId := made.value];
      r := Ok(made.value);
    }

    // -------------------------------------------------------------- cab bookings and inquiries

    /** POST /cab-bookings */
    method CreateCabBooking(c: CabBookingCreate, newId: Id, now: Timestamp) returns (r: Result<CabBooking, HttpError>)
      requires Valid()
      modifies this`cabBookings
      ensures Valid()
      ensures newId in old(cabBookings) ==> r == Err(Internal("Failed to create cab booking")) && cabBookings == old(cabBookings)
      ensures newId !in old(cabBookings) ==>
                r == Ok(NewCabBooking(c, newId, now)) && cabBookings == old(cabBookings)[newId := NewCabBooking(c, newId, now)]
    {
      if newId in cabBookings {
        return Err(Internal("Failed to create cab booking"));
      }
      var b := NewCabBooking(c, newId, now);
      cabBookings := cabBookings[newId := b];
      r := Ok(b);
    }

    /** POST /contact */
    method CreateContactInquiry(c: ContactCreate, newId: Id, now: Timestamp) returns (r: Result<ContactInquiry, HttpError>)
      requires Valid()
      modifies this`inquiries
      ensures Valid()
      ensures newId in old(inquiries) ==> r == Err(Internal("Failed to create inquiry")) && inquiries == old(inquiries)
      ensures newId !in old(inquiries) ==>
                r == Ok(NewContactInquiry(c, newId, now)) && inquiries == old(inquiries)[newId := NewContactInquiry(c, newId, now)]
    {
      if newId in inquiries {
        return Err(Internal("Failed to create inquiry"));
      }
      var q := NewContactInquiry(c, newId, now);
      inquiries := inquiries[newId := q];
      r := Ok(q);
    }

    // -------------------------------------------------------------- upload

    /**
     * POST /admin/upload. A content type that is not `image/...` is refused before the
     * file is written. Otherwise the file is written under a fresh name and then its
     * gallery record inserted; if that insert fails the file stays written.
     */
    method UploadImage(contentType: string, filename: string, title: string,
                       description: Option<string>, category: Option<string>,
                       fileId: string, imageId: Id, now: Timestamp)
      returns (r: Result<UploadReply, HttpError>)
      requires Valid()
      modifies this`uploads, this`gallery
      ensures Valid()
      ensures !IsImageType(contentType) ==>
                r == Err(BadRequest("File must be an image")) && uploads == old(uploads) && gallery == old(gallery)
      ensures IsImageType(contentType) ==> uploads == old(uploads) + {StoredName(fileId, filename)}
      ensures IsImageType(contentType) && imageId in old(gallery) ==>
                r == Err(Internal("Failed to upload image")) && gallery == old(gallery)
      ensures IsImageType(contentType) && imageId !in old(gallery) ==>
                var url := "/uploads/" + StoredName(fileId, filename);
                && gallery == old(gallery)[imageId := NewGalleryImage(title, description.GetOr(""), url,
                                                                      category.GetOr("gallery"), imageId, now)]
                && r == Ok(UploadReply("Image uploaded successfully", imageId, url))
    {
      if !IsImageType(contentType) {
        return Err(BadRequest("File must be an image"));
      }
      var name := StoredName(fileId, filename);
      uploads := uploads + {name};
      if imageId in gallery {
        return Err(Internal("Failed to upload image"));
      }
      var url := "/uploads/" + name;
      var image := NewGalleryImage(title, description.GetOr(""), url, category.GetOr("gallery"), imageId, now);
      KeyedInsert(gallery, ImageKey, image);
      gallery := gallery[imageId := image];
      r := Ok(UploadReply("Image uploaded successfully", imageId, url));
    }

    // -------------------------------------------------------------- dashboard

    /** GET /admin/stats */
    method GetDashboardStats() returns (r: DashboardStats)
      requires Valid()
      ensures r.totalPackages == Count(packages, IsPublicPackage)
      ensures r.activeBookings == Count(bookings, IsConfirmed)
      ensures r.cabBookings == |cabBookings|
      ensures r.customerReviews == Count(testimonials, IsApproved)
      ensures r.monthlyRevenue == MonthlyRevenue
      ensures exists recent :: IsCursor(recent, bookings, AnyBooking, BookingCreated, 5) && r.recentBookings == Summaries(recent)
      ensures |r.recentBookings| == Min(5, |bookings|)
      ensures forall i, j :: 0 <= i < j < |r.recentBookings| ==> r.recentBookings[i].date >= r.recentBookings[j].date
      ensures forall i :: 0 <= i < |r.recentBookings| ==>
                r.recentBookings[i].id in bookings && Summary(bookings[r.recentBookings[i].id]) == r.recentBookings[i]
    {
      KeyedInjective(bookings, BookingKey);
      var recent := Find(bookings, AnyBooking, BookingCreated, 5);
      CursorSize(recent, bookings, AnyBooking, BookingCreated, 5);
      assert Count(bookings, AnyBooking) == |bookings|;
      forall i | 0 <= i < |recent|
        ensures recent[i].id in bookings && bookings[recent[i].id] == recent[i]
      {
        var k :| k in bookings && bookings[k] == recent[i];
      }
      r := DashboardStats(Count(packages, IsPublicPackage), Count(bookings, IsConfirmed), |cabBookings|,
                          Count(testimonials, IsApproved), MonthlyRevenue, Summaries(recent));
    }
  }

  // ---------------------------------------------------------------- properties across handlers

  /**
   * With at most 1000 packages stored, every package of the public listing is also in
   * the admin listing, whatever its position.
   */
  lemma PublicListingInAdminListing(packages: map<Id, Package>, pub: seq<Package>, adm: seq<Package>)
    requires Keyed(packages, PackageKey) && |packages| <= 1000
    requires IsCursor(pub, packages, IsPublicPackage, PackageCreated, 100)
    requires IsCursor(adm, packages, AnyPackage, PackageCreated, 1000)
    ensures forall p :: p in pub ==> p in adm
  {
    KeyedInjective(packages, PackageKey);
    forall p | p in pub ensures p in adm {
      var i :| 0 <= i < |pub| && pub[i] == p;
      var k :| k in packages && packages[k] == p;
      CursorComplete(adm, packages, AnyPackage, PackageCreated, 1000, k);
    }
  }

  /** The public listing is as long as the dashboard's package count, up to 100. */
  lemma PublicListingMatchesDashboard(packages: map<Id, Package>, pub: seq<Package>)
    requires Keyed(packages, PackageKey)
    requires IsCursor(pub, packages, IsPublicPackage, PackageCreated, 100)
    ensures |pub| == Min(100, Count(packages, IsPublicPackage))
  {
    KeyedInjective(packages, PackageKey);
    CursorSize(pub, packages, IsPublicPackage, PackageCreated, 100);
  }

  /** A package whose status an update sets to inactive is no longer served publicly. */
  lemma DeactivatedPackageHidden(packages: map<Id, Package>, id: Id, u: PackageUpdate, now: Timestamp, pub: seq<Package>)
    requires id in packages && u.status == Some(Inactive)
    requires IsCursor(pub, packages[id := ApplyUpdate(packages[id], u, now)], IsPublicPackage, PackageCreated, 100)
    ensures forall p :: p in pub ==> p.id != id || p.status == Active
    ensures ApplyUpdate(packages[id], u, now) !in pub
  {
    forall p | p in pub ensures p.status == Active {
      var i :| 0 <= i < |pub| && pub[i] == p;
    }
  }

  /**
   * An update, a deactivation included, never drops a package from the admin listing,
   * which shows every status, so long as the store holds at most 1000 packages.
   */
  lemma DeactivatedStillAdminListed(packages: map<Id, Package>, id: Id, u: PackageUpdate, now: Timestamp, adm: seq<Package>)
    requires Keyed(packages, PackageKey) && id in packages && |packages| <= 1000
    requires IsCursor(adm, packages[id := ApplyUpdate(packages[id], u, now)], AnyPackage, PackageCreated, 1000)
    ensures ApplyUpdate(packages[id], u, now) in adm
  {
    var p := ApplyUpdate(packages[id], u, now);
    var docs := packages[id := p];
    KeyedInsert(packages, PackageKey, p);
    assert docs == packages[PackageKey(p) := p];
    KeyedInjective(docs, PackageKey);
    assert docs.Keys == packages.Keys;
    assert |docs| == |packages|;
    CursorComplete(adm, docs, AnyPackage, PackageCreated, 1000, id);
  }

  /** A freshly submitted testimonial is pending, so no public listing contains it. */
  lemma FreshTestimonialNotPublic(testimonials: map<Id, Testimonial>, c: TestimonialCreate, newId: Id, now: Timestamp, pub: seq<Testimonial>)
    requires 1 <= c.rating <= 5
    requires IsCursor(pub, testimonials[newId := NewTestimonial(c, newId, now).value], IsApproved, TestimonialCreated, 100)
    ensures NewTestimonial(c, newId, now).value !in pub
  {
  }

  /** A submitted testimonial starts pending, so the dashboard's review count does not move. */
  lemma SubmissionKeepsReviewCount(testimonials: map<Id, Testimonial>, c: TestimonialCreate, newId: Id, now: Timestamp)
    requires newId !in testimonials && 1 <= c.rating <= 5
    ensures Count(testimonials[newId := NewTestimonial(c, newId, now).value], IsApproved) == Count(testimonials, IsApproved)
  {
    CountInsertFresh(testimonials, IsApproved, newId, NewTestimonial(c, newId, now).value);
  }

  /** A new booking starts pending, so the dashboard's confirmed-booking count does not move. */
  lemma NewBookingKeepsConfirmedCount(bookings: map<Id, Booking>, c: BookingCreate, newId: Id, now: Timestamp)
    requires newId !in bookings
    ensures Count(bookings[newId := NewBooking(c, newId, now)], IsConfirmed) == Count(bookings, IsConfirmed)
  {
    CountInsertFresh(bookings, IsConfirmed, newId, NewBooking(c, newId, now));
  }

  /** A new package starts active, so the dashboard's package count grows by one. */
  lemma NewPackageRaisesPackageCount(packages: map<Id, Package>, c: PackageCreate, newId: Id, now: Timestamp)
    requires newId !in packages
    ensures Count(packages[newId := NewPackage(c, newId, now)], IsPublicPackage) == Count(packages, IsPublicPackage) + 1
  {
    CountInsertFresh(packages, IsPublicPackage, newId, NewPackage(c, newId, now));
  }

  /** Deleting a package lowers the dashboard's package count by one exactly when it was active. */
  lemma DeleteLowersPackageCount(packages: map<Id, Package>, id: Id)
    requires id in packages
    ensures Count(packages - {id}, IsPublicPackage) == Count(packages, IsPublicPackage) - (if IsPublicPackage(packages[id]) then 1 else 0)
  {
    CountRemove(packages, IsPublicPackage, id);
  }
}
