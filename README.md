# Travel agency backend and admin team page — a Dafny model

This project models the core of a travel-agency web application:

- **`Models`** (`models.dfy`): the record shapes of the FastAPI backend:
  - the five string enumerations and their parsers;
  - the stored documents;
  - the create payloads and the defaults they fill in;
  - the all-optional package update;
  - the rating range `1..5` of a testimonial;
  - the bearer token response.
- **`Query`** (`query.dfy`): the MongoDB read `find(filter).sort("createdAt", -1).to_list(n)` that every list endpoint uses.
  - The ghost predicate `IsCursor` specifies it: at most `n` matching documents, no repeats, newest first, and nothing newer left out.
  - The method `Find` implements it with a loop that inserts each matching key into a newest-first list.
  - `count_documents` is `Count`.
- **`Server`** (`server.dfy`): the request handlers.
  - They are methods of a `Database` class whose fields are the collections, as maps from id to document.
  - `Valid()` is the invariant every handler keeps: each document is filed under its own id, and administrator usernames are unique.
  - Handlers fail with the HTTP status and detail string of the source.
- **`Team`** (`team.dfy`): the admin team page.
  - Create, update, delete, toggle and search are pure transforms of the member list.
  - `TeamPage` is the component state (members, form, member being edited, search term, role filter, dialog flag) that the event handlers update.
  - Closing the dialog with Cancel or by dismissing it does not reset the form. The "Add First Team Member" button then opens the dialog without resetting it either, so after a cancelled edit it opens in edit mode on the old member (`CloseDialog`, then `OpenDialog`).
- **`Wrappers`** (`wrappers.dfy`): `Option` and `Result`.

Things outside the model enter as parameters:

- Clock readings and fresh ids: `now`, `newId`, `fileId`, `imageId`.
- The password-hash check: the function `verify`.
- Token signing: the function `issue`.
- The user's answer to the delete confirmation: `confirmed`.

Error cases:

- A payload that fails validation gets FastAPI's 422 (`HttpError.Unprocessable`).
- An insert under an id already in use fails with the handler's 500; no precondition excludes it.
- On the team page, the code as written overwrites the stored password when an edit is saved with the password left blank, although the field's label says a blank field keeps it. `Team.UpdateMemberAsWritten` models that code; `Team.UpdateMember` is the corrected update that `TeamPage` runs. See Findings.

## Model

| member | source | states |
|---|---|---|
| Models.ParseBookingStatus | backend/models.py:9-13 | a parsed string is the name of the status returned; parsing fails exactly when no status has that name |
| Models.ParseTestimonialStatus | backend/models.py:15-17 | the same for approved/pending |
| Models.ParseInquiryStatus | backend/models.py:19-22 | the same for new/replied/closed |
| Models.ParsePackageStatus | backend/models.py:24-26 | the same for active/inactive |
| Models.ParseTripType | backend/models.py:28-31 | the same for oneway/roundtrip/local |
| Models.EnumRoundTrips | backend/models.py:9-31 | every enumeration value parses back from its own string |
| Models.NewPackage | backend/models.py:40-56 | a created package is active; each of its five lists is the supplied one or [], and its category the supplied one or "standard"; title, description, duration, price, group size and image are copied; it carries the supplied id and one clock reading as both time stamps |
| Models.NewBooking | backend/models.py:92-121 | a new booking is pending, with special requests "" and booking type "package" unless given; customer, email, phone, package, travel date, travelers and amount are copied |
| Models.NewTestimonial | backend/models.py:123-146 | validation succeeds exactly when 1 <= rating <= 5; a refused payload reports its rating; an accepted one keeps every submitted field, has images [] unless given, and is pending |
| Models.NewCabBooking | backend/models.py:148-184 | a new cab booking is pending, has estimated cost 0.0, and has drop location and special requests "" unless given; every other submitted field is copied |
| Models.NewContactInquiry | backend/models.py:186-209 | a new inquiry has status new, inquiry type "general" and preferred contact "email" unless given; name, email, phone, subject and message are copied |
| Models.NewGalleryImage | backend/models.py:211-222 | a new gallery record is active, has no tags, and keeps the given title, description, category and url |
| Models.NewTokenResponse | backend/models.py:248-250 | the token type is "bearer" |
| Query.Find | backend/server.py:111-112 | the result of a filtered, newest-first, limited read satisfies IsCursor: bounded, repeat-free, all matching, newest first, nothing newer omitted |
| Query.TakeNewest | backend/server.py:112 | cutting a complete newest-first key list to the limit gives a cursor |
| Query.InsertNewest | backend/server.py:111 | the result holds the old keys and the inserted key, each as often as before plus the one new key |
| Query.InsertNewestSorted | backend/server.py:111 | inserting into a newest-first list keeps it newest first |
| Query.InsertNewestDistinct | backend/server.py:111 | inserting a new key keeps the list repeat-free |
| Query.CursorSize | backend/server.py:111-112 | a cursor holds exactly min(limit, count_documents(filter)) documents |
| Query.CursorComplete | backend/server.py:148-149 | when no more documents match than the limit, every matching document is in the cursor |
| Query.CountInsertFresh | backend/server.py:391-394 | inserting a document under a new id adds one to a count exactly when the document matches |
| Query.CountRemove | backend/server.py:391-394 | removing a document subtracts one from a count exactly when it matched |
| Query.Count | backend/server.py:391-394 | count_documents is at most the collection size, and equals it exactly when every document passes the filter |
| Query.MatchingCard | backend/server.py:391-394 | with distinct documents under distinct ids, the matching documents number count_documents |
| Query.DistinctCard | backend/server.py:112 | a repeat-free list has as many distinct elements as its length |
| Query.ImageCard | backend/server.py:391 | distinct ids of distinct documents give as many documents as ids |
| Server.KeyedInjective | backend/server.py:166-167 | a collection where each document sits under its own id never stores one document twice |
| Server.KeyedInsert | backend/server.py:166-167 | inserting a document under its own id keeps that invariant |
| Server.FindAdmin | backend/server.py:71 | the administrator found carries the username, and one is found exactly when one with that username exists |
| Server.ApplyUpdate | backend/server.py:188-194 | every supplied field (title through status) takes the supplied value and every field left out keeps the stored one; id and creation time are kept and updatedAt is the server clock |
| Server.EmptyUpdateOnlyStamps | backend/server.py:188-189 | an update supplying no field changes nothing but updatedAt |
| Server.UpdateIdempotent | backend/server.py:188-194 | repeating an update changes only the time stamp |
| Server.UpdateMerge | backend/server.py:188-194 | two updates in a row equal one merged update in which each field takes its last supplied value |
| Server.UpdateVisibility | backend/server.py:188-194 | an updated package is public exactly when the supplied status, or else the old one, is active |
| Server.IsImageType | backend/server.py:346 | a content type is accepted exactly when it starts with "image/" |
| Server.Extension | backend/server.py:350 | the extension is no longer than the file name |
| Server.StoredName | backend/server.py:351 | the stored name is the uuid, a dot, then the extension |
| Server.StoredNameKeepsExtension | backend/server.py:350-351 | the stored name has the same extension as the uploaded file |
| Server.Summaries | backend/server.py:409-418 | one summary per booking, and a newest-first list of bookings gives summaries in newest-first date order |
| Server.ExtensionIsLastPiece | backend/server.py:350 | the stored extension is the dot-free text after the last dot, or the whole name when it has no dot |
| Server.ExtensionOfDottedName | backend/server.py:350-351 | a name built as stem.ext yields the extension ext back |
| Server.Database.constructor | backend/database.py:77 | the database starts valid, holding only the seeded administrators |
| Server.Database.AdminLogin | backend/server.py:63-96 | success exactly when the username exists and the password verifies; failure is 401 "Invalid username or password" with nothing changed; success records the login time of that administrator only and returns a bearer token for that name and id |
| Server.Database.GetPackages | backend/server.py:104-118 | the active packages as a cursor of at most 100, newest first |
| Server.Database.GetPackageById | backend/server.py:120-138 | found exactly when the package exists and is active; otherwise 404 "Package not found" |
| Server.Database.AdminGetPackages | backend/server.py:141-155 | packages of every status as a cursor of at most 1000 |
| Server.Database.CreatePackage | backend/server.py:157-173 | stores and returns NewPackage under a new id; an id in use gives 500 and no change |
| Server.Database.UpdatePackage | backend/server.py:175-204 | an unknown id gives 404 and no change; otherwise only that package is replaced by ApplyUpdate, and the stored result is returned |
| Server.Database.DeletePackage | backend/server.py:206-224 | an unknown id gives 404 and no change; otherwise exactly that package is removed and the reply is "Package deleted successfully" |
| Server.Database.CreateBooking | backend/server.py:227-243 | stores and returns NewBooking under a new id; an id in use gives 500 |
| Server.Database.AdminGetBookings | backend/server.py:245-259 | every booking as a cursor of at most 1000 |
| Server.Database.GetTestimonials | backend/server.py:262-276 | approved testimonials as a cursor of at most 100 |
| Server.Database.CreateTestimonial | backend/server.py:278-294 | a rating outside 1..5 gives 422 and stores nothing; otherwise the pending testimonial is stored under the new id, or 500 when the id is in use |
| Server.Database.CreateCabBooking | backend/server.py:297-313 | stores and returns NewCabBooking under a new id; an id in use gives 500 |
| Server.Database.CreateContactInquiry | backend/server.py:316-332 | stores and returns NewContactInquiry under a new id; an id in use gives 500 |
| Server.Database.UploadImage | backend/server.py:335-381 | a non-image content type gives 400 "File must be an image" with no file and no record; an image writes uuid.extension; the record with url /uploads/<name> and defaults "" and "gallery" is inserted, or 500 once the file is written |
| Server.Database.GetDashboardStats | backend/server.py:384-420 | the counts are active packages, confirmed bookings, all cab bookings and approved reviews; revenue is the fixed 125000.0; the recent bookings are the summaries of a 5-entry newest-first cursor: min(5, number of bookings) of them, newest first, each the summary of a stored booking |
| Server.PublicListingInAdminListing | backend/server.py:104-155 | with at most 1000 packages, every package served publicly is also in the admin listing |
| Server.PublicListingMatchesDashboard | backend/server.py:111-112 | the public listing is as long as the dashboard's package count, capped at 100 |
| Server.DeactivatedPackageHidden | backend/server.py:188-194 | after an update sets a package inactive, no listing served publicly contains it |
| Server.DeactivatedStillAdminListed | backend/server.py:141-155 | with at most 1000 packages stored, an updated package, a deactivated one included, is still in the admin listing |
| Server.SubmissionKeepsReviewCount | backend/server.py:278-294 | submitting a testimonial does not change the dashboard's review count |
| Server.FreshTestimonialNotPublic | backend/server.py:262-294 | a freshly submitted testimonial is pending, so no public listing contains it |
| Server.NewBookingKeepsConfirmedCount | backend/server.py:227-243 | a new booking does not change the confirmed-booking count |
| Server.NewPackageRaisesPackageCount | backend/server.py:157-173 | a new package raises the dashboard's package count by exactly one |
| Server.DeleteLowersPackageCount | backend/server.py:206-224 | deleting a package lowers the package count by one exactly when it was active |
| Team.Keep | frontend/src/pages/admin/AdminTeam.jsx:205 | a filter keeps exactly the elements that pass, and is no longer than its input |
| Team.KeepIsSubsequence | frontend/src/pages/admin/AdminTeam.jsx:205 | a filter keeps the input order |
| Team.KeepConcat | frontend/src/pages/admin/AdminTeam.jsx:205 | filtering a concatenation is the concatenation of the filtered parts |
| Team.KeepEverything | frontend/src/pages/admin/AdminTeam.jsx:205 | a filter that every element passes changes nothing |
| Team.KeepAgreeing | frontend/src/pages/admin/AdminTeam.jsx:228-234 | filters that agree on every element give the same list |
| Team.KeepDisjoint | frontend/src/pages/admin/AdminTeam.jsx:446-460 | two filters no element passes together keep at most the whole list between them |
| Team.EmptyForm | frontend/src/pages/admin/AdminTeam.jsx:136-149 | every text field is blank, the role is agent and the member active, so the browser would not submit it |
| Team.Submittable | frontend/src/pages/admin/AdminTeam.jsx:306-360 | the browser submits the dialog only when full name, email, phone and username are non-empty, and, when adding, the password too |
| Team.EditAcceptsWhatAddAccepts | frontend/src/pages/admin/AdminTeam.jsx:348-360 | every form accepted when adding is accepted when editing, and an edit form with a password is accepted when adding |
| Team.OptionalFieldsNotRequired | frontend/src/pages/admin/AdminTeam.jsx:306-360 | department, joining date, role and the active flag never decide whether the form is accepted |
| Team.RequiredFieldsRequired | frontend/src/pages/admin/AdminTeam.jsx:306-360 | a blank full name, email, phone or username is refused in either mode, and a blank password when adding |
| Team.FormOf | frontend/src/pages/admin/AdminTeam.jsx:186-200 | the edit form has a blank password; saving it back unchanged reproduces the member under the corrected merge and blanks the password under the merge as written |
| Team.Edited | frontend/src/pages/admin/AdminTeam.jsx:157-163 | the edited member takes the form's fields, keeps id, counters, last login and avatar, and keeps its password when the form's is blank |
| Team.EditedAsWritten | frontend/src/pages/admin/AdminTeam.jsx:157-163 | the same merge as written: the password is always the form's, blank or not |
| Team.WithField | frontend/src/pages/admin/AdminTeam.jsx:132-134 | editing one field sets that field and leaves the rest of the form as it was |
| Team.NewMember | frontend/src/pages/admin/AdminTeam.jsx:167-175 | a created member has the form's fields and password, no last login, zero counters, no avatar |
| Team.UpdateMemberAsWritten | frontend/src/pages/admin/AdminTeam.jsx:157-163 | as written: members with other ids are unchanged; the edited member shows the form again and keeps its id, counters, last login and avatar; its password is the form's, blank or not |
| Team.UpdateMember | frontend/src/pages/admin/AdminTeam.jsx:157-163 | members with other ids are unchanged; the edited member shows the form again and keeps its id, counters, last login and avatar; a blank password keeps the stored one |
| Team.EditThenSaveIsNoOp | frontend/src/pages/admin/AdminTeam.jsx:157-198 | opening a member and saving the form untouched leaves the list as it was |
| Team.PasswordBlankedAsWritten | frontend/src/pages/admin/AdminTeam.jsx:157-163 | as written, that round trip turns a stored password into "" |
| Team.RemoveMember | frontend/src/pages/admin/AdminTeam.jsx:205 | deleting removes exactly the members with the id and keeps the others in order |
| Team.RemoveMemberConcat | frontend/src/pages/admin/AdminTeam.jsx:205 | deletion distributes over concatenation |
| Team.RemoveAbsentMember | frontend/src/pages/admin/AdminTeam.jsx:205 | deleting an id nobody has changes nothing |
| Team.CreateThenDelete | frontend/src/pages/admin/AdminTeam.jsx:167-205 | deleting a member just created under a fresh id restores the previous list |
| Team.ToggleStatus | frontend/src/pages/admin/AdminTeam.jsx:215-221 | toggling flips isActive on the members with the id only, and changes no other field |
| Team.ToggleTwice | frontend/src/pages/admin/AdminTeam.jsx:215-221 | toggling twice restores the list |
| Team.LowerChar | frontend/src/pages/admin/AdminTeam.jsx:229-231 | a capital A-Z becomes the small letter at the same place in the alphabet, any other character stays, and no capital comes out |
| Team.Lower | frontend/src/pages/admin/AdminTeam.jsx:229-231 | lower-casing keeps the length, turns each capital into the small letter at the same place in the alphabet, leaves no capital, and keeps every character that is not a capital |
| Team.LowerIdempotent | frontend/src/pages/admin/AdminTeam.jsx:229-231 | lower-casing twice is lower-casing once |
| Team.FilterMembers | frontend/src/pages/admin/AdminTeam.jsx:228-234 | the shown members are exactly those matching the search and the role, in list order |
| Team.UnfilteredShowsAll | frontend/src/pages/admin/AdminTeam.jsx:228-234 | an empty search with role 'all' shows the whole list |
| Team.SearchIgnoresTermCase | frontend/src/pages/admin/AdminTeam.jsx:229-231 | lower-casing the search term does not change what is shown |
| Team.KeepCountsIndices | frontend/src/pages/admin/AdminTeam.jsx:446-474 | a filter's result is as long as the number of positions that pass it |
| Team.StatsOf | frontend/src/pages/admin/AdminTeam.jsx:433-474 | the total is the list length; admins, managers and active members are the numbers of positions with that role or flag; admins plus managers, and active members, never exceed the total |
| Team.TeamPage.constructor | frontend/src/pages/admin/AdminTeam.jsx:30-46 | the page starts with no members, the empty form, nothing edited, an empty search, role 'all' and the dialog closed |
| Team.TeamPage.Load | frontend/src/pages/admin/AdminTeam.jsx:124 | the fetched list becomes the member list |
| Team.TeamPage.HandleInputChange | frontend/src/pages/admin/AdminTeam.jsx:132-134 | only the form changes, by WithField |
| Team.TeamPage.SetSearchTerm | frontend/src/pages/admin/AdminTeam.jsx:493 | only the search term changes |
| Team.TeamPage.SetRoleFilter | frontend/src/pages/admin/AdminTeam.jsx:500 | only the role filter changes |
| Team.TeamPage.ResetForm | frontend/src/pages/admin/AdminTeam.jsx:136-149 | the form becomes the empty one (role agent, active) and nothing is edited |
| Team.TeamPage.OpenAddDialog | frontend/src/pages/admin/AdminTeam.jsx:283-289 | the header button resets the form and opens the dialog with nothing being edited |
| Team.TeamPage.OpenDialog | frontend/src/pages/admin/AdminTeam.jsx:535-539 | the empty-list button opens the dialog and changes nothing else, so a member left from an earlier edit is still being edited |
| Team.TeamPage.CloseDialog | frontend/src/pages/admin/AdminTeam.jsx:410-413 | Cancel closes the dialog and keeps the form and the member being edited |
| Team.TeamPage.HandleEdit | frontend/src/pages/admin/AdminTeam.jsx:186-200 | the member is being edited, the form shows its fields with a blank password, and the dialog opens |
| Team.TeamPage.HandleSubmit | frontend/src/pages/admin/AdminTeam.jsx:151-184 | a form failing the required-field checks changes nothing; otherwise, with a member being edited the list is UpdateMember of it, else the new member is put in front; the form is reset and the dialog closed |
| Team.TeamPage.FilteredMembers | frontend/src/pages/admin/AdminTeam.jsx:228-234 | the members shown are exactly those matching the page's search term and role filter, in list order |
| Team.TeamPage.Stats | frontend/src/pages/admin/AdminTeam.jsx:433-474 | the stat cards count the whole member list: total, admins, managers, active |
| Team.TeamPage.HandleDelete | frontend/src/pages/admin/AdminTeam.jsx:202-211 | when confirmed, the list becomes RemoveMember; otherwise it is unchanged |
| Team.TeamPage.ToggleMemberStatus | frontend/src/pages/admin/AdminTeam.jsx:213-226 | the list becomes ToggleStatus |

## Left out

- Authentication internals are not modelled: password hashing, JWT encoding and expiry, and the `admin_required` dependency guarding the admin routes. The hash check and token signing are the parameters `verify` and `issue`, and each admin handler is modelled as if its guard had passed.
- `GET /auth/verify` and the root route: they only echo the guard's result or a fixed message.
- Database start-up (connection, seeding, index creation) is not modelled. The unique index on administrator usernames is the only index the model relies on, as part of `Valid()`.
- Email syntax checking (`EmailStr`) is not modelled: emails are any string.
- Floating-point values (prices, amounts, costs, revenue) are `real`, and nothing computes with them.
- Date-times are integer `Timestamp`s. The dashboard's `isoformat()` rendering of a booking date is left as the timestamp.
- Models.NewPackage: the source reads the clock separately for `createdAt` and `updatedAt`; the model uses one reading for both.
- Server.Database.UpdatePackage: the stored document is returned as the updated package. Re-validating it through `Package(**doc)` is not modelled, because every update field already has the stored field's type.
- Server.Database.UploadImage: a missing content type or file name, which make the source fail with a 500, is not modelled (both are strings here). The file's bytes and the disk write are reduced to the set of stored names.
- Database errors other than a duplicate id (connection loss, timeouts), which the handlers turn into 500s, are not modelled.
- Query.Find: the order of documents with equal `createdAt` is left open, as MongoDB leaves it.
- Team page I/O is not modelled:
  - the mock data `fetchTeamMembers` loads and its loading flag (the list is given to `Load`);
  - the toast messages;
  - the password visibility toggle;
  - the role badge colours and all rendering.
- The browser's `window.confirm` is the boolean `confirmed`.
- `Date.now()` as the new member's id is the parameter `newId`.
- Team.Lower: only ASCII letters are lower-cased; JavaScript's `toLowerCase` covers all of Unicode.
- Team.TeamPage.HandleSubmit: the edit branch runs the corrected `UpdateMember`, so a blank password keeps the stored one. The page as written stores the blank password; that behaviour is `UpdateMemberAsWritten` (see Findings).
- Team.TeamPage.HandleSubmit: the browser's `required` checks are modelled as `Submittable`. Other browser validation, such as the email input type, is not modelled.

## Findings

| source | as written | input that shows it | evidently intended | confidence | as-written member | corrected member |
|---|---|---|---|---|---|---|
| frontend/src/pages/admin/AdminTeam.jsx:157-163 | the update spreads the whole form over the member, so the form's blank password replaces the stored one | edit a member with password "secret" and save without typing a password: the member's password becomes "" | a blank password keeps the current one, as the field's label at line 353 says | high (not executed) | Team.PasswordBlankedAsWritten | Team.EditThenSaveIsNoOp |
