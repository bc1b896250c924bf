# Travel booking backend — a Dafny model

This project models the request handlers of an Express/Mongoose travel
booking backend. The backend offers trips, hotels with rooms, rental cars
(vehicles), reviews, bookings and blogs.

Each Mongo collection is a `map<Id, Record>` field of one `Store.Database`
object, with a `nextId` counter that stands in for fresh ObjectIds. Each
handler is a method over that object that answers with a `Status` tag. Its
contract states the new state of every collection it may change, and the
pure rules behind the handlers are functions with lemmas about them.

Foreign calls are parameters of the handlers:
- `jwt.verify`;
- Google ID-token verification;
- `JSON.parse`;
- base64 state decoding;
- the URL validator;
- `crypto.randomBytes`;
- `Date.now()`.

The modules follow the backend's files:

| module | models |
|---|---|
| `Common` | identifiers, status tags, the requester, the owner-or-admin rule, JSON values, images and the image listing |
| `Strings` | `split` and `startsWith` as used on the Authorization header, and the `trim()` sanitizer of the request rules |
| `Store` | the records of every collection and the `Database` class with its invariant (keys below `nextId`, unique e-mails, ratings in 1..5, vehicle statuses in their enum) |
| `Validation` | the express-validator rule lists as failure lists and predicates, each with an if-and-only-if lemma |
| `Tokens` | the tokens as claim records with their lifetimes |
| `Passport` | the JWT strategy lookup and the Google OAuth callback |
| `Middleware` | `protect` (a class for the request state it writes) and `authorize` |
| `Auth` | register, login, Google login, user verification, password-reset request |
| `Reviews` | review creation with the average recomputation, review deletion |
| `Bookings` | the booking handlers and the trip participant counter |
| `Paging` | query filtering and the skip/limit/`totalPages` arithmetic |
| `JsonDocs` | the `forEach` loop that rewrites named fields of a request body |
| `Trips`, `Hotels`, `Rooms`, `Blogs`, `Vehicles` | the corresponding controllers |

## How the model follows the code

The model follows the code as written, including its defects:

- **Registration without a role.** The account gets role `user` but stays unverified (`verified: role === 'user'` reads the role as sent). Login then refuses it with 403.
- **The password is never checked.** The test is `!password === user.password`, which compares a boolean with a string and so is always false. Login does not depend on the password's value.
- **Login with an unknown e-mail gives 500, not 401.** `user.password` is read before the null check, so the handler throws.
- **Cancelling twice counts twice.** `cancelBooking` does not look at the booking's status, so a second cancellation takes the trip's participant counter down again.
- **`updateHotel` resets fields.** It always writes `averageRating` as `parseFloat(...) || 0`, which overwrites the aggregate written by the review handler. It always writes `location` and `amenities` too, falling back to `{}` and `[]`.
- **`createRoom` always stores `availability: true`,** whatever was sent.
- **A hotel cannot be created without a status.** Backend/models/Hotel.js gives `status` the default `pending`, which lies outside its own enum `available`/`unavailable`. `Hotel.create` validates the defaulted path, so a body that sends no status is answered 500, and so is the `unactive` that the hotel route's rule admits.
- **A blank value passes `notEmpty()`.** In each `notEmpty().trim()` chain the check sees the value as sent and the sanitizer then writes the trimmed value back. A comment, make or model of spaces only passes the rules, trims to "" and is refused by the schema's `required`, which the handler's `catch` answers with 500.
- **Updates skip the route's rules.** `updateBlog`, `updateVehicle` and `addComment` never call `validationResult`. The route's rules are computed but never enforced, and a body that names `author` or `owner` reassigns the record.
- **Google-login tokens are refused by `protect`.** Those tokens carry the claim `userId`, while `protect` and the JWT strategy look up `id`.
- **The header `Bearer` alone gets two answers.** `protect` answers it once from the `catch` and then tries to answer again from the trailing `!token` check.
- **The Google strategy trusts the state.** It uses the decoded `state` role verbatim, so a state carrying `admin` creates an administrator.

Where the design description and the code disagree, the model follows the code:

- `login` rejects an unknown e-mail with 500, not an invalid-credentials 401.
- Tokens carry no role claim, except the Google-login token.
- `googleLogin` gives no priority between a `googleId` match and an e-mail match; the store may return either.
- Backend/models/Trip.js declares no `itinerary`, `includes` or `excludes` paths. The trip handlers parse those fields, but `Trip.create` and `findByIdAndUpdate` keep only schema paths, so the parsed values are not stored.
- The hotel handlers check no rules themselves. The hotel routes apply their own rule list, not the one in Backend/utils/validation.js.

## Model

| member | source | states |
|---|---|---|
| Common.MayModifyCases | Backend/controllers/reviewController.js:59-61 | the owner and any admin pass the owner-or-admin rule; anyone else fails it |
| Common.Listing | Backend/controllers/tripController.js:402-407 | the listing has one entry per image, entry i carrying image i's content type and the index i |
| Common.RemoveAt | Backend/controllers/tripController.js:397 | `splice(i, 1)` keeps the elements before i, shifts the ones after down by one, and shortens the list by one |
| Common.RemoveAtRestores | Backend/controllers/tripController.js:397 | putting the removed element back rebuilds the list, and the removal takes away exactly that one element (as multisets) |
| Strings.JoinSplit | Backend/middleware/auth.js:48 | splitting on a separator and joining with it gives back the string |
| Strings.SplitTwoWords | Backend/middleware/auth.js:48 | `"Bearer " + token` splits into exactly those two words when neither contains a space |
| Strings.TrimStart | Backend/utils/validation.js:35 | the result is a suffix of the string, does not start with whitespace, and everything cut off is whitespace |
| Strings.TrimEnd | Backend/utils/validation.js:35 | the result is a prefix of the string, does not end with whitespace, and everything cut off is whitespace |
| Strings.Trim | Backend/utils/validation.js:35 | the result is the window of the string after its leading whitespace, and starts and ends with a non-whitespace character |
| Strings.TrimCutsWhitespace | Backend/utils/validation.js:35 | everything of the string outside the trimmed window is whitespace |
| Strings.TrimEmptyIff | Backend/utils/validation.js:35 | a string trims to "" exactly when every character is whitespace |
| Strings.TrimUnpadded | Backend/utils/validation.js:35 | a string that neither starts nor ends with whitespace is unchanged |
| Strings.TrimIdempotent | Backend/utils/validation.js:35 | trimming twice is trimming once |
| Strings.TrimPadded | Backend/utils/validation.js:23-24 | whitespace padding on either side of a word is exactly what is removed |
| Strings.TrimExamples | Backend/utils/validation.js:35 | three spaces trim to ""; " Toyota " trims to "Toyota" |
| Store.ReviewsOfInsert | Backend/controllers/reviewController.js:25-40 | storing a new review adds exactly its id to its own item's selection and leaves every other item's selection unchanged |
| Store.Database.FindUserByEmail | Backend/controllers/authController.js:24-27 | no result exactly when no user has the e-mail; a result is a stored user with that e-mail |
| Store.Database.FindReviews | Backend/controllers/reviewController.js:37-40 | the result lists every matching review exactly once (multiset equality) |
| Validation.NoFailuresIffAllPass | Backend/utils/validation.js:3-43 | a rule list produces no errors exactly when every check in it passes |
| Validation.NoFailuresIffAllPassAt | Backend/utils/validation.js:3-43 | a rule list produces no errors exactly when the check at every position passes |
| Validation.FailuresAppend | Backend/utils/validation.js:3-43 | checking two lists in turn reports the failures of both, in order |
| Validation.FailedCheckIsReported | Backend/utils/validation.js:3-43 | a failed check's field appears among the reported errors |
| Validation.ParseItemType | Backend/utils/validation.js:33 | a tag is accepted exactly when it is trip, hotel or car, and then names that item type |
| Validation.ItemTypeRoundTrip | Backend/utils/validation.js:33 | parsing an item type's name gives the item type back |
| Validation.ReviewValidIff | Backend/utils/validation.js:32-36 | a review passes exactly when its type is trip, hotel or car, its rating is an integer in 1..5, and its comment is not empty |
| Validation.BookingValidIff | Backend/utils/validation.js:38-43 | a booking passes exactly when its type is in the enum, both dates parse, and the price is numeric |
| Validation.VehicleValidIff | Backend/utils/validation.js:22-30 | a vehicle passes exactly when make and model are not empty, its type is sedan, suv, van or luxury, the numbers are numeric, and the features are an array |
| Validation.TripValidIff | Backend/utils/validation.js:3-13 | a trip passes exactly when the text fields are not empty, the numbers are numeric, its type is weekly, customized or corporate, and both dates parse |
| Validation.HotelValidIff | Backend/utils/validation.js:15-20 | a hotel passes exactly when name, description and location are not empty and the amenities are an array; no route mounts this list, since the hotel routes define their own |
| Validation.BlogValidIff | Backend/routes/blogRoutes.js:15-20 | a blog passes exactly when title and content are not empty, the featured image is a non-empty URL, and tags is an array |
| Tokens.ClaimNames | Backend/controllers/authController.js:7-11 | login tokens carry `id` and not `userId`; Google-login tokens carry `userId` and not `id`; lifetimes are 30 days and one hour |
| Passport.JwtLookup | Backend/config/passport.js:14-16 | a user is found exactly when the `id` claim is present and names a stored user, and the result is that user |
| Passport.IssuedTokenResolves | Backend/config/passport.js:14-16 | a register/login token resolves to the user it was issued for |
| Passport.GoogleLoginTokenNeverResolves | Backend/controllers/authController.js:213-221 | a Google-login token never resolves a user |
| Passport.RoleFromState | Backend/config/passport.js:34-42 | the role is never empty, and it is either `user` or exactly the role found in the decoded state |
| Passport.StateRoleTrustedVerbatim | Backend/config/passport.js:38 | any truthy decoded role is used unchecked (`admin` included) |
| Passport.UndecodableStateGivesUser | Backend/config/passport.js:35-41 | a missing or undecodable state leaves role `user` and does not fail |
| Passport.ProfileUser | Backend/config/passport.js:45-53 | for a profile with a photos array, the created user is verified, carries the profile id and the random password, has the first e-mail and the given role, and its picture is the first photo or none |
| Passport.GoogleCallback | Backend/config/passport.js:28-59 | a profile without e-mail fails with nothing stored; a known first e-mail returns that user unchanged; an unknown one fails with nothing stored when the profile has no photos array, and otherwise adds exactly one new user |
| Middleware.WithoutPassword | Backend/middleware/auth.js:54 | the attached user is the stored one with no password |
| Middleware.Protect | Backend/middleware/auth.js:38-70 | the request's user, the replies sent and whether `next` runs are exactly what the guard function gives |
| Middleware.NoBearerHeader | Backend/middleware/auth.js:42-45 | an absent header, or one not starting with `Bearer`, gets one 401 "no token", no user and no `next` |
| Middleware.BareBearerAnswersTwice | Backend/middleware/auth.js:48-69 | the header `Bearer` alone is answered 401 twice and `next` does not run |
| Middleware.GuardOutcomes | Backend/middleware/auth.js:46-64 | either `next` runs with no reply and a password-free stored user attached, or the first reply is a 401 and `next` does not run |
| Middleware.LoginTokenAdmitted | Backend/middleware/auth.js:51-60 | a verified login token of a stored user attaches that user and calls `next` |
| Middleware.GoogleLoginTokenRefused | Backend/middleware/auth.js:54-58 | a verified Google-login token is answered 401 with a null user and no `next` |
| Middleware.RejectedTokenRefused | Backend/middleware/auth.js:61-64 | a token the verifier rejects is answered 401, the user is untouched, and `next` does not run |
| Middleware.Authorize | Backend/middleware/auth.js:72-86 | the gate passes exactly when a user is attached and its role is allowed |
| Middleware.AuthorizeDenials | Backend/middleware/auth.js:74-82 | no user is denied 401; a role outside the list is denied 403 |
| Middleware.AuthorizeSeesOnlyRole | Backend/middleware/auth.js:78 | two users with the same role get the same outcome |
| Middleware.AuthorizeMonotone | Backend/middleware/auth.js:72-86 | adding roles to the list never turns a pass into a denial |
| Middleware.AdminRouteWithLoginToken | Backend/middleware/auth.js:51-84 | with a login token, `protect` then `authorize('admin')` admits exactly administrators |
| Auth.LocalUser | Backend/controllers/authController.js:34-42 | the role is as sent or `user`; verified exactly when the role sent was `user`; local auth type |
| Auth.OmittedRoleIsUnverified | Backend/controllers/authController.js:39-41 | omitting the role gives role `user` but an unverified account |
| Auth.OtherRolesAreUnverified | Backend/controllers/authController.js:39-41 | any other role is stored as sent and unverified |
| Auth.Register | Backend/controllers/authController.js:14-54 | 400 with the store unchanged for a missing field or a taken e-mail; otherwise exactly one new user and a token `{id}` for it |
| Auth.PasswordCheckNeverRejects | Backend/controllers/authController.js:87-89 | the password comparison never rejects |
| Auth.Login | Backend/controllers/authController.js:65-115 | 400 for a missing field; 500 for an unknown e-mail; 403 for an unverified user; otherwise 200 with the user's `{id}` token; never 401 |
| Auth.GoogleUser | Backend/controllers/authController.js:193-203 | a created Google user is verified, has role `user` and carries the Google id and e-mail |
| Auth.Linked | Backend/controllers/authController.js:204-210 | a match without a Google id gets it backfilled, verified and its picture set; one with a Google id is unchanged |
| Auth.LinkedIdempotent | Backend/controllers/authController.js:204-210 | a second login with the same payload changes nothing more |
| Auth.GoogleLogin | Backend/controllers/authController.js:174-241 | a failed verification gives 500 with nothing changed; no match adds exactly one user; otherwise some matching user is linked; the token is `{userId, email, role}` |
| Auth.MarkVerified | Backend/controllers/authController.js:273-279 | only the named user's `verified` flag changes, and it becomes true |
| Auth.VerifyIdempotent | Backend/controllers/authController.js:278 | verifying twice equals verifying once |
| Auth.VerifyUser | Backend/controllers/authController.js:271-297 | 404 for an unknown id; the users become those of `MarkVerified` |
| Auth.ForgotPassword | Backend/controllers/authController.js:318-341 | 404 for an unknown e-mail; otherwise 200, with the one-hour reset token only in development |
| Reviews.RatingSumAppend | Backend/controllers/reviewController.js:42 | the rating sum over a concatenation is the sum of the sums |
| Reviews.RatingSumRemove | Backend/controllers/reviewController.js:42 | removing one review removes exactly its rating from the sum |
| Reviews.RatingSumPermutation | Backend/controllers/reviewController.js:42 | the sum is the same for any order of the same reviews |
| Reviews.RatingSumBounds | Backend/controllers/reviewController.js:42 | with ratings in 1..5, the sum over n reviews lies in [n, 5n] |
| Reviews.MeanInRange | Backend/controllers/reviewController.js:42 | the mean of ratings in 1..5 lies in [1, 5] |
| Reviews.MeanPermutation | Backend/controllers/reviewController.js:42 | the mean of a reordering is the same |
| Reviews.MeanExample | Backend/controllers/reviewController.js:42 | ratings 4, 5, 3 average to 4 in either of two orders |
| Reviews.AnyListingGivesItemAverage | Backend/controllers/reviewController.js:37-42 | any listing of an item's reviews gives that item's mean, which lies in [1, 5] |
| Reviews.WriteAverage | Backend/controllers/reviewController.js:31-44 | only the item named, in the collection its type selects, gets the new average, and only if it exists |
| Reviews.BlankCommentRefused | Backend/controllers/reviewController.js:18-50 | a comment of spaces only passes the rules but not the schema's required comment |
| Reviews.StoreAndAverage | Backend/controllers/reviewController.js:25-44 | the review is stored under a fresh id, and the mean over all the item's reviews (new one included) is written to that item, within [1, 5] |
| Reviews.CreateReview | Backend/controllers/reviewController.js:18-50 | 400 with nothing changed for an invalid body; 500 with nothing changed when the comment is blank once trimmed; otherwise a new review authored by the requester with the trimmed comment, and the mean over all the item's reviews (new one included) written to that item, within [1, 5] |
| Reviews.DeleteReview | Backend/controllers/reviewController.js:52-68 | 404, or 403 unless author or admin, with nothing changed; otherwise only that review goes and no average is touched |
| Bookings.BookingsOfInsert | Backend/controllers/bookingController.js:9-28 | a new booking appears in its owner's list under its id and in no one else's |
| Bookings.GetBookings | Backend/controllers/bookingController.js:7-16 | returns exactly the requester's bookings |
| Bookings.AdjustParticipants | Backend/controllers/bookingController.js:38-40 | only the named trip's counter moves, by exactly the delta; a missing trip stays missing |
| Bookings.AdjustInverse | Backend/controllers/bookingController.js:80-82 | moving the counter by +d, then by -d, restores it |
| Bookings.AdjustCompose | Backend/controllers/bookingController.js:80-82 | two adjustments add up |
| Bookings.NewBooking | Backend/controllers/bookingController.js:25-28 | the stored booking's user is the requester; item, status and type are as sent |
| Bookings.CreateBooking | Backend/controllers/bookingController.js:18-47 | 400 with nothing changed; otherwise exactly one booking added and, for a trip, that trip's counter +1 with no bound |
| Bookings.UpdateBookingStatus | Backend/controllers/bookingController.js:49-63 | 404 for a missing booking; otherwise only its status changes, to the sent value |
| Bookings.Cancel | Backend/controllers/bookingController.js:65-89 | succeeds exactly when the booking exists and the requester owns it or is admin; on rejection nothing changes |
| Bookings.CancelBooking | Backend/controllers/bookingController.js:65-89 | the status and both collections end up as `Cancel` gives |
| Bookings.CancelRejections | Backend/controllers/bookingController.js:67-74 | 404 for a missing booking and 403 for a stranger, with nothing changed |
| Bookings.CancelAccepted | Backend/controllers/bookingController.js:76-83 | an accepted cancellation sets `cancelled` and moves only the trip's counter, down by 1 |
| Bookings.CancelTwice | Backend/controllers/bookingController.js:76-83 | a second cancellation also succeeds and the counter ends 2 lower |
| Bookings.BookThenCancel | Backend/controllers/bookingController.js:37-41 | creating then cancelling a trip booking leaves the counter as it was |
| Paging.Filter | Backend/controllers/tripController.js:30 | a filtered listing holds only matching documents from the listing, no more of them than it had |
| Paging.FilterKeepsMatches | Backend/controllers/tripController.js:30 | every matching document is in the filtered listing |
| Paging.CeilDivIsCeiling | Backend/controllers/tripController.js:40 | `totalPages` is the least page count whose pages hold all matches |
| Paging.PageShape | Backend/controllers/tripController.js:33-41 | a page holds at most `limit` consecutive matches starting at `(page-1)*limit`; a limit of 0 returns all |
| Paging.PageBeforeFirst | Backend/controllers/tripController.js:33 | a page below 1, with a limit, gives a negative skip, which the store rejects |
| Paging.PageAt | Backend/controllers/tripController.js:33-34 | a page whose skip lies within the listing holds the next `limit` matches from the skip, or all that remain |
| Paging.EveryMatchOnItsPage | Backend/controllers/tripController.js:33-41 | match i appears at position i mod limit of page i div limit + 1, which is within `totalPages` |
| Paging.PastLastPageIsEmpty | Backend/controllers/tripController.js:33-41 | a page past `totalPages` is empty |
| JsonDocs.RewriteFields | Backend/controllers/tripController.js:87-95 | each listed field is rewritten once from its original value; every other field is unchanged |
| Trips.PriceFilter | Backend/controllers/tripController.js:20-24 | min only means at least min; max only means at most max; both mean both bounds; neither means no price condition |
| Trips.AllTripsPage | Backend/controllers/tripController.js:18-41 | the listing returns only matching trips, at most `limit` of them, with every match counted and `totalPages` the ceiling |
| Trips.JsonFieldRule | Backend/controllers/tripController.js:87-95 | a JSON field that fails to parse, or is not a non-empty string, keeps its value; one that parses is replaced |
| Trips.NewTrip | Backend/controllers/tripController.js:69-110 | for a body that names neither counter, a created trip starts with 0 participants and rating 0; its images are the uploads, in order |
| Trips.UpdatedTripKeeps | Backend/controllers/tripController.js:232-247 | uploads replace the images and no upload keeps them; for a body that names neither counter, the counter and the rating survive an update |
| Trips.CreateTrip | Backend/controllers/tripController.js:69-129 | 400 with nothing changed; otherwise exactly one trip added and the uploads listed |
| Trips.UpdateTrip | Backend/controllers/tripController.js:213-302 | 400, then 404 for a missing trip, with nothing changed; otherwise only that trip is replaced by its update |
| Trips.GetTripImage | Backend/controllers/tripController.js:354-375 | 404 for a missing trip or no images; 400 unless the index is an integer in range; otherwise that image |
| Trips.DeleteTripImage | Backend/controllers/tripController.js:379-413 | the same 404 and 400 with nothing changed; otherwise exactly that image is removed and the rest are listed |
| Trips.DeletionListing | Backend/controllers/tripController.js:397-407 | after a deletion the listing is one shorter, indexed from 0, and keeps the other images' order |
| Hotels.SafeJsonParseCases | Backend/controllers/hotelController.js:5-15 | a string that parses gives its parse; one that fails gives the default; a truthy non-string is kept; anything else gives the default |
| Hotels.SafeJsonParseIdempotent | Backend/controllers/hotelController.js:5-15 | parsing an already-parsed non-string value again changes nothing |
| Hotels.ParseJsonFields | Backend/controllers/hotelController.js:120-126 | after the loop, location and amenities each hold their safe parse against their own default |
| Hotels.AllHotelsPage | Backend/controllers/hotelController.js:39-69 | every listed hotel is rated at least `minRating` and has the queried status (an empty status filters nothing); no qualifying hotel is missing; pages hold at most `limit`; `totalPages` is the ceiling |
| Hotels.CreateAcceptedIff | Backend/models/Hotel.js:4-48 | `Hotel.create` accepts exactly a body with a non-empty name and description that sends `available` or `unavailable`; a body without a status (default `pending`) or with `unactive` is refused |
| Hotels.NewHotel | Backend/controllers/hotelController.js:103-131 | the owner is the requester, the images are the uploads, and the status is the one sent, within the enum |
| Hotels.NewHotelFields | Backend/controllers/hotelController.js:109-129 | the owner is the requester even when the body names one; a missing rating is 0; missing JSON fields get their defaults |
| Hotels.CreateHotel | Backend/controllers/hotelController.js:103-149 | 500 with nothing stored when the schema refuses the body: a missing required string, or a status that is absent (so defaulted to `pending`) or outside the enum; otherwise exactly one hotel added |
| Hotels.UpdateResets | Backend/controllers/hotelController.js:164-187 | no rating sent resets `averageRating` to 0; no location or amenities resets them to `{}` and `[]`; uploads replace the images, and no upload keeps them; an absent status is kept, and an accepted update keeps the status within the enum |
| Hotels.UpdateHotel | Backend/controllers/hotelController.js:152-217 | 404 for a missing hotel, 500 for an empty required string or a sent status outside the enum, nothing changed; otherwise only that hotel is replaced by its update |
| Hotels.DeleteHotelImage | Backend/controllers/hotelController.js:272-306 | 404 for no hotel or no images; 400 for a bad index; otherwise exactly that image is removed |
| Rooms.GetRoomsByHotel | Backend/controllers/roomController.js:29-39 | 404 exactly when no room references the hotel; otherwise 200 with those rooms |
| Rooms.NewRoom | Backend/controllers/roomController.js:43-56 | a created room is available whatever was sent, has amenities as sent or `[]`, and has the uploads as images |
| Rooms.UnavailableStoredAvailable | Backend/controllers/roomController.js:50 | a room sent as unavailable is stored as available |
| Rooms.CreateRoom | Backend/controllers/roomController.js:41-63 | 500 with nothing stored if a required path is missing; otherwise exactly one room added |
| Rooms.UpdatedRoomKeeps | Backend/controllers/roomController.js:67-72 | an update never changes the room's hotel or images; a body with none of the five fields changes nothing |
| Rooms.UpdateRoom | Backend/controllers/roomController.js:65-80 | 404 for a missing room; otherwise only that room is patched |
| Rooms.AddRoomImages | Backend/controllers/roomController.js:95-114 | 404 for a missing room; otherwise the uploads are appended after the stored images |
| Rooms.RemoveRoomImage | Backend/controllers/roomController.js:117-136 | 404, with nothing changed, for a missing room or no image at the index; otherwise exactly that image is removed |
| Blogs.NewBlog | Backend/controllers/blogController.js:36-39 | the author is the requester; the title is the trimmed one; content, featured image (a URL) and tags are as sent; for a body that names no comments, there are none |
| Blogs.CreateBlog | Backend/controllers/blogController.js:29-44 | 400 with nothing stored for an invalid body; otherwise exactly one blog added, as `NewBlog` builds it, with the trimmed title |
| Blogs.PatchedBlogFields | Backend/controllers/blogController.js:57-61 | an update stamps `updatedAt`; a sent title is stored trimmed; for a body that names no comments, the comments are kept; a sent author takes over the blog |
| Blogs.UpdateBlog | Backend/controllers/blogController.js:46-66 | 404, or 403 unless author or admin, with nothing changed; otherwise only that blog is patched, with a sent title trimmed |
| Blogs.DeleteBlog | Backend/controllers/blogController.js:68-84 | the same 404 and 403, otherwise only that blog is removed |
| Blogs.AddComment | Backend/controllers/blogController.js:86-102 | 404 for a missing blog; otherwise exactly one comment by the requester, with the trimmed content, is appended |
| Vehicles.BlankMakeRefused | Backend/utils/validation.js:23 | a make of spaces only passes the rules and is refused by the schema |
| Vehicles.NewVehicle | Backend/controllers/vehicleController.js:32-35 | the owner is the requester; make and model are trimmed and not blank; for a body that names no rating, the rating is 0; the status is the one sent or `active`, always within the enum |
| Vehicles.StoreVehicle | Backend/controllers/vehicleController.js:32-35 | the vehicle is stored under a fresh id and nothing else in the collection changes |
| Vehicles.CreateVehicle | Backend/controllers/vehicleController.js:25-40 | 400 for an invalid body; 500 for a make or model blank once trimmed or a status outside the enum; nothing stored in either case; otherwise exactly one vehicle added, as `NewVehicle` builds it |
| Vehicles.PatchedVehicleFields | Backend/controllers/vehicleController.js:53-57 | an accepted patch keeps the status in the enum; a sent make or model is stored trimmed and not blank; for a body that names no rating, the rating is kept; a sent owner takes over the vehicle |
| Vehicles.UpdateVehicle | Backend/controllers/vehicleController.js:42-62 | 404, or 403 unless owner or admin, or 500 for a patch the schema rejects (a blank trimmed make or model, or a type or status outside its enum), with nothing changed; otherwise only that vehicle is patched |
| Vehicles.DeleteVehicle | Backend/controllers/vehicleController.js:64-80 | the same 404 and 403, otherwise only that vehicle is removed |
| Vehicles.MarkActive | Backend/controllers/vehicleController.js:84-88 | only the named vehicle's status changes, and it becomes `active` |
| Vehicles.MarkActiveIdempotent | Backend/controllers/vehicleController.js:84-88 | verifying twice equals verifying once |
| Vehicles.VerifyVehicle | Backend/controllers/vehicleController.js:82-95 | 404 for a missing vehicle; the vehicles become those of `MarkActive` |

## Left out

- JWT signing and verification, Google ID-token verification, `crypto.randomBytes`, base64 decoding, `JSON.parse`, and the URL validator are foreign calls: they are function parameters, not modelled.
- Only a token's claim names and lifetimes are kept; the token string and its signature are not modelled.
- Number and date parsing (`parseFloat`, `parseInt`, `Number`, `new Date`, `isNumeric`, `isISO8601`) is not modelled; each parsed field is an `Option`.
- Floating point is not modelled: the average is an exact real, there is no NaN, and a NaN `minRating` is not considered.
- Mongoose query features are not modelled: regular-expression filters (destination, city, country), the hotel `amenities`, `city` and `country` filters, sort order, `populate` and `select`. A listing is taken in whatever order the requested sort gives.
- A negative `limit` is not modelled; the limit is a natural number.
- Mongoose schema casting and type validation are not modelled. The model keeps only the required-path checks of `createHotel` and `createRoom`, the required review comment and vehicle make and model after trimming, the empty-required-string checks of the validated updates, and the hotel and vehicle enums.
- Backend/models/User.js, Booking.js and Blog.js are not part of this model. Records take the fields the handlers read and write.
- Extra request-body fields are not modelled (for example a review's own `user`, or a blog's `comments`). The bodies carry the fields the rules and handlers use.
- Trips.NewTrip: the zero counters hold only for a body that names neither `currentParticipants` nor `averageRating`. `{...req.body}` would store either one as sent.
- Trips.UpdatedTripKeeps: the counters survive only for a body that names neither. An admin update that sends `currentParticipants: 0` resets the counter in the code.
- Blogs.NewBlog: "no comments" holds only for a body that names no `comments`, which the spread would store.
- Blogs.PatchedBlogFields: the comments are kept only for a body that names no `comments`, which the spread would overwrite.
- Vehicles.NewVehicle: the zero rating holds only for a body that names no `averageRating`, which the spread would store.
- Vehicles.PatchedVehicleFields: the rating is kept only for a body that names no `averageRating`, which the update passes through.
- The `trim()` sanitizer is modelled as leaving an absent field absent. It applies only to strings; the typed bodies carry no other values there.
- Blog.js is not part of this model, so the blog schema's own checks are not modelled. A create or update whose title trims to "", or a comment whose content does, is stored as it is.
- The hotel routes' own rule lists and `validate` middleware (Backend/routes/hotelRoutes.js:33-61 and 72-87) are not modelled. Through the route they answer 400 before the handler runs, for example a blank trimmed name or description, an empty location or a non-numeric price, and they trim the name and description. The model's hotel handlers take the body as the route hands it on. Their status 500 is reached through the route too, because the route's status rule is optional and admits `unactive`; their required-string 500 is reached only when the handler is called directly.
- The read-then-write race in `createReview`, and concurrency generally, are not modelled; handlers run one at a time.
- Express plumbing, multer uploads, logging, `logout`, the e-mail TODO in `forgotPassword`, and Passport's serialize and deserialize functions are not modelled. The handlers' `catch` answers are kept only where the model can reach them.
- The following read-only or deletion handlers are outside the modelled core: `getCurrentUser`, `getReviews`, `getTripById`, `deleteTrip`, `searchTrips`, `getHotelById`, `deleteHotel`, `getHotelImage`, `getAllRooms`, `getRoomById`, `deleteRoom`, `getBlogs`, `getBlog`, `getVehicles` and `getVehicle`.
- Trips.CreateTrip: the parsed `itinerary`, `includes` and `excludes` values are computed as the handler does but not stored, because the schema has no such paths. Trip.js's date and number conversions are folded into the typed body.
- Trips.UpdateTrip: the trip update validators are not modelled, since a body that passed the rules sets every required path.
- Hotels.AllHotelsPage: only the `minRating` and `status` filters are modelled.
