# Student accommodation portal: sessions, roles, records and form logic

This project models the decision and state logic of a small student
accommodation web application, written in Dafny. The application has an Express/Mongoose server and a React client.

On the server side:

- **Session middleware `auth`.** It finds a token in the `Authorization` header, then the `token` cookie, then the `token` query parameter. It classifies what `jwt.verify` makes of the token and rejects an expired payload. It admits the request only when a stored user has the payload's id and lists that exact token.
- **Role gate `requireRole`.** It admits a request only when the user's role is in the allowed list.
- **Signup and login.** Both are chains of early-return guards over the user collection.
- **Admin routes.** One lists the users without passwords. One approves an owner in place.
- **Owner-scoped and student-scoped routes.** These create and list accommodations and bookings.
- **Schema rules.** These are the role and status enumerations with their defaults, the fields required only of owners, the `isApproved` default, and the pre-save hook that hashes a password only when it was modified.

On the client side:

- The listing filter and its price slider.
- The list editors of the add-accommodation form.
- The booking-date guard.
- What the signup and login pages send, store and navigate to.

How the pieces map to Dafny:

- **Collections.** The MongoDB collections are sequences in a `Database.Store` class. Route handlers that write to them are methods. Each method is proved equal to a pure function of the old collections (`Signup`, `ApproveOwner`, `CreateAccommodationFor`, `CreateBookingFor`). The lemmas are stated about those functions.
- **Session middleware.** `auth` is a method over a `Request` object. It sets `user` and `token` only when it admits the request, and it is proved to agree with the function `AuthOutcome`.
- **External pieces.** These become parameters or stand-ins:
  - `jwt.verify` is a function parameter returning a payload or an error name.
  - `Date.now()` is an integer parameter.
  - A thrown database lookup in the middleware is a boolean.
  - `jwt.sign` is the claims it signs.
  - `bcrypt` is a stand-in `Hash` with `Compare`.
  - `fetch` is a function parameter of the client handlers.
  - Browser effects (`alert`, `setError`, `localStorage.setItem`, `navigate`) are values.

One consequence of the code as written is proved in `Scenarios`. The middleware looks the token up in a `tokens` list, but the user schema declares no such list and no route writes one. So after any sequence of signups and approvals, every route behind `auth` refuses every request, provided the store applies the `tokens.token` filter (see "## Left out").

The code has none of the following, and neither does the model:

- case-insensitive email matching;
- account lockout, a failed-attempt counter or rate limiting;
- logout;
- 24-hour token expiry.

Signed tokens carry no `exp` claim.

## Model

| member | source | states |
|---|---|---|
| Users.ParseRole | server/models/user.js:8 | a role string is accepted exactly when it is one of `student`, `owner`, `admin` |
| Users.RoleName | server/models/user.js:8 | the stored name of every role is accepted by the enumeration and parses back to that role |
| Users.RoleOrDefault | server/models/user.js:8 | an absent role becomes `student`; a given one is cast against the enumeration |
| Users.PublicDropsOnlyPassword | server/models/user.js:4-12 | two users have the same password-less projection exactly when they differ at most in the password |
| Users.Hash | server/models/user.js:16 | the stored hash never equals the plaintext and is never empty |
| Users.CompareOnlyOwnHash | server/models/user.js:14-19 | the stand-in `compare` accepts a password against its own stand-in hash and rejects every other password (bcrypt itself is not injective; see "## Left out") |
| Users.PreSave | server/models/user.js:14-19 | a save that does not modify the password leaves the document unchanged; one that does replaces only the password, by a hash the plaintext compares against |
| Users.CreateUser | server/models/user.js:4-19 | validation succeeds exactly when name, email and password are non-empty, the role is in the enumeration (or absent), and an owner has both company fields; the saved user copies the fields, defaults the role, is approved exactly when not an owner, stores a hash of the password and satisfies the schema |
| Accommodations.CreateAccommodation | server/models/Accommodation.js:3-10 | validation succeeds exactly when name, description and address are non-empty and price and owner are present and castable; the record copies them and defaults amenities to empty |
| Bookings.ParseStatus | server/models/Booking.js:8 | a status string is accepted exactly when it is `pending`, `confirmed` or `cancelled`, and each of these strings gives its own status |
| Bookings.CreateBooking | server/models/Booking.js:3-9 | validation succeeds exactly when both references and both dates are present and castable and a given status is in the enumeration; the status defaults to pending; nothing relates the two dates |
| Middleware.BearerPrefixStripped | server/middleware/auth.js:10 | a `Bearer ` header yields exactly the token after the prefix |
| Middleware.HeaderWithoutBearerKept | server/middleware/auth.js:10 | a header containing no `Bearer ` is taken whole as the token |
| Middleware.ExtractToken | server/middleware/auth.js:9-12 | the header token wins when non-empty, otherwise the cookie, otherwise the query parameter; an empty value falls through; the result is never empty |
| Middleware.SessionUser | server/middleware/auth.js:32-35 | the user found has the payload's id and lists the exact token; none is found exactly when no stored user has both |
| Middleware.AuthOutcome | server/middleware/auth.js:6-66 | no token gives 401; a `JsonWebTokenError` gives 401 and any other verification error 500; the expiry rejection happens exactly when `exp` is present and in the past; admission happens exactly when the token verifies, is not expired, the lookup does not fail and a user with that id lists the token, and then carries that user without password and the raw token; after a valid, unexpired token a failing lookup gives 500 and a missing user gives 401 "User not found or token invalidated" |
| Middleware.NoExpiryNeverExpires | server/middleware/auth.js:25-30 | a payload without `exp` is never rejected as expired, whatever the clock says |
| Middleware.Auth | server/middleware/auth.js:6-66 | the early-return chain passes exactly when `AuthOutcome` admits, then sets the request's user and token; otherwise it answers `AuthOutcome`'s status and message and leaves the request unchanged |
| Middleware.RequireRole | server/middleware/auth.js:68-86 | passes exactly when a user is present with a role in the list; 401 without a user, 403 for any other role |
| Middleware.Gatekeep | server/routes/admin.js:7 | `auth` then `requireRole` passes exactly when the session is admitted with an allowed role; a rejected session keeps its own answer; an admitted one with another role gets 403 |
| Middleware.Guard | server/routes/owner.js:7 | the gate run on a request answers as `Gatekeep`; whenever `auth` admits the session, the request carries the admitted user and the raw token, whatever the role gate then decides; when the session is rejected, the request's user and token are unchanged |
| AuthRoutes.Draft | server/routes/auth.js:46-53 | the document gets the body's name, email, password and role, and the company fields only when the role is `owner` |
| AuthRoutes.Signup | server/routes/auth.js:22-63 | an email in use gives 400 and no change; then missing owner fields give 400; then an admin signup is refused with 403 exactly when the code differs from the configured one (both absent are equal); a validation failure gives 500 and stores nothing; otherwise exactly the validated user is appended, with the body's name and email, a hash of its password, the requested or default role, the body's company fields for an owner and none otherwise, approved exactly when not an owner, and schema-valid; the answer is 201 with claims for that user and its role exactly when the secret can sign, 500 with the user already saved otherwise |
| AuthRoutes.SignupRoute | server/routes/auth.js:22-63 | the handler run against the store answers and leaves the users exactly as `Signup` says, takes a fresh id exactly when the request passes the three guards, keeps the store valid, and leaves the other collections alone |
| AuthRoutes.LoginUser | server/routes/auth.js:93 | the user found has that email and that role name; none is found exactly when no stored user has both |
| AuthRoutes.Login | server/routes/auth.js:90-113 | an unknown email-role pair and a wrong password give the same 401; the 403 for a pending owner happens exactly when the password matched and the owner is unapproved; success happens exactly when the password matched, an owner is approved and the secret can sign, and answers 200 with that user's claims and role; a matched, admitted user answers 500 "Error logging in" when the secret cannot sign; the store is only read |
| AdminRoutes.ListUsers | server/routes/admin.js:9-10 | every user, in order, without the password |
| AdminRoutes.IndexOfId | server/routes/admin.js:18 | the position found holds the id and no earlier one does; none is found exactly when no user has the id |
| AdminRoutes.ApproveOwner | server/routes/admin.js:16-28 | an unknown id or a non-owner gives 404 and no change; an owner gets 200 and only its `isApproved` becomes true, with the password not rehashed |
| AdminRoutes.ApproveOwnerIdempotent | server/routes/admin.js:22-24 | approving twice answers and leaves the users as approving once |
| AdminRoutes.ApproveOwnerKeepsUsersValid | server/routes/admin.js:22-23 | approval keeps unique emails and ids, the id bound and the schema of every user |
| AdminRoutes.ListUsersRoute | server/routes/admin.js:7-14 | a request refused by the admin gate gets the gate's answer; an admitted one gets 200 with the password-less listing |
| AdminRoutes.ApproveOwnerRoute | server/routes/admin.js:16-28 | the admin gate runs before any store access; a refused request leaves the store unchanged; an admitted one answers and updates the users exactly as `ApproveOwner`; the store stays valid |
| OwnerRoutes.OwnedBy | server/routes/owner.js:22 | exactly the accommodations whose owner is the caller, as a subsequence of the collection, each as often as it is stored |
| OwnerRoutes.CreateAccommodationFor | server/routes/owner.js:7-18 | creation succeeds exactly when name, description and address are non-empty and price is present and castable, whatever owner the body names; success answers 201 and appends the record with the caller as owner; failure answers 400 and stores nothing |
| OwnerRoutes.CreateThenList | server/routes/owner.js:7-27 | a created accommodation appears at the end of its creator's listing, and no other owner's listing changes |
| OwnerRoutes.CreateAccommodationRoute | server/routes/owner.js:7-18 | the owner gate runs first and a refused request changes nothing; an admitted one gets `CreateAccommodationFor` with the admitted user's id; users and bookings are untouched |
| OwnerRoutes.ListAccommodationsRoute | server/routes/owner.js:20-27 | a refused request gets the gate's answer; an admitted one gets 200 with exactly the caller's accommodations |
| StudentRoutes.BookingsOf | server/routes/student.js:9 | exactly the bookings whose student is the caller, as a subsequence of the collection, each as often as it is stored |
| StudentRoutes.Populate | server/routes/student.js:9 | the populated reference is the stored accommodation with the booking's id, or null exactly when none is stored |
| StudentRoutes.ListBookings | server/routes/student.js:7-14 | one populated view per booking of the caller, in order; each view's accommodation is the stored one with the booking's reference, and null exactly when none is stored |
| StudentRoutes.CreateBookingFor | server/routes/student.js:16-27 | creation succeeds exactly when the accommodation reference and both dates are present and castable and a given status is valid, whatever student the body names; success answers 201 and appends the booking with the caller as student and status defaulted to pending; failure answers 400 and stores nothing |
| StudentRoutes.BookThenList | server/routes/student.js:7-27 | a created booking appears at the end of its student's listing, and no other student's listing changes |
| StudentRoutes.ServerIgnoresDateOrder | server/models/Booking.js:6-7 | the server stores a booking whose check-out precedes its check-in |
| StudentRoutes.BookRoute | server/routes/student.js:16-27 | the student gate runs first and a refused request changes nothing; an admitted one gets `CreateBookingFor` with the admitted user's id; users and accommodations are untouched |
| StudentRoutes.ListBookingsRoute | server/routes/student.js:7-14 | a refused request gets the gate's answer; an admitted one gets 200 with the caller's populated bookings |
| ListingPage.FilterListings | waytopg/src/components/accommodationlistpage.tsx:47-56 | a listing is shown exactly when its price is in the range, its lower-cased name contains the lower-cased term, and the type is unrestricted or equal; the result is a subsequence of the full list, with each shown listing as often as in the full list |
| ListingPage.UnfilteredShowsAll | waytopg/src/components/accommodationlistpage.tsx:24-26 | no term, no type and a range covering every price show the whole list in order |
| ListingPage.LoweringMaxNeverAdds | waytopg/src/components/accommodationlistpage.tsx:50-51 | lowering the upper bound gives the wider result filtered again, hence never adds a listing |
| ListingPage.SlideMax | waytopg/src/components/accommodationlistpage.tsx:85 | the slider sets the upper bound and changes nothing else |
| ListingPage.SlidesKeepLowerBound | waytopg/src/components/accommodationlistpage.tsx:24 | after any slider moves the lower bound, term and type are as they started, and the upper bound is the last value |
| ListingPage.InitialLowerBoundStaysZero | waytopg/src/components/accommodationlistpage.tsx:24 | from the initial state `[0, 1000]`, the lower bound stays 0 after any slider moves |
| ListingPage.WideningRestores | waytopg/src/components/accommodationlistpage.tsx:47-56 | narrowing the range and widening it back shows exactly what was shown before |
| AccommodationForm.Without | waytopg/src/components/addaccommodation.tsx:57 | removes every occurrence of the id and keeps every other value, in order and as often as before |
| AccommodationForm.ToggleAmenity | waytopg/src/components/addaccommodation.tsx:53-60 | membership of the toggled id flips; an absent id is appended at the end; every other id keeps its membership, and the others keep their order and multiplicity |
| AccommodationForm.ToggleTwiceRestores | waytopg/src/components/addaccommodation.tsx:56-58 | toggling an unselected amenity twice restores the list |
| AccommodationForm.ToggleTwiceMovesToEnd | waytopg/src/components/addaccommodation.tsx:56-58 | toggling a selected amenity twice moves it to the end and collapses duplicates |
| AccommodationForm.AddRule | waytopg/src/components/addaccommodation.tsx:62-67 | the list grows by one empty rule at the end and keeps the rest |
| Base.DropIndex | waytopg/src/components/addaccommodation.tsx:69-74 | removing at an index in range deletes exactly that position and keeps the others in order; an index out of range changes nothing (also the image removal of lines 49-51) |
| AccommodationForm.EditRule | waytopg/src/components/addaccommodation.tsx:76-81 | only the edited position changes; length and other rules are kept |
| AccommodationForm.EditRuleLaws | waytopg/src/components/addaccommodation.tsx:76-81 | rewriting a rule with its own text changes nothing; a second edit of the same rule overrides the first |
| AccommodationForm.AddImages | waytopg/src/components/addaccommodation.tsx:44-47 | the chosen files come after the existing ones, both kept whole |
| AccommodationForm.RulesNeverEmpty | waytopg/src/components/addaccommodation.tsx:339-348 | with removal offered only while more than one rule exists, no sequence of clicks empties a non-empty rules list |
| AccommodationForm.InitialRulesNeverEmpty | waytopg/src/components/addaccommodation.tsx:41 | starting from one empty rule, the list is never emptied |
| BookingGuard.HandleBooking | waytopg/src/components/accommodationdetailpage.tsx:47-58 | a missing date is refused first; then check-out on or before check-in is refused; the booking is initiated exactly when both dates are present and in strict order |
| BookingGuard.MissingBeforeOrder | waytopg/src/components/accommodationdetailpage.tsx:48-55 | with a date missing the date order is never consulted; a same-day stay is refused with the order message |
| ClientSession.JsText | waytopg/src/components/signup.tsx:57 | an absent JSON field is shown or stored as `undefined` |
| ClientSession.DashboardFor | waytopg/src/components/signup.tsx:43-55 | student, owner and admin go to their dashboards; the home page is chosen exactly when the role is absent or unknown (same switch as `login.tsx` lines 28-40) |
| ClientSession.DashboardsDistinct | waytopg/src/components/login.tsx:28-40 | every server role has its own dashboard, distinct from the others and from the home page |
| ClientSession.SignedIn | waytopg/src/components/signup.tsx:40-42 | on success the token, then the role, are stored before the navigation |
| SignupPage.SignupBody | waytopg/src/components/signup.tsx:29-37 | the company fields are sent exactly for `owner` and the admin code exactly for `admin`, with the form's values |
| SignupPage.SubmitSignup | waytopg/src/components/signup.tsx:19-63 | mismatched passwords send nothing and alert; otherwise the body is sent; a thrown request alerts the generic message; an ok reply stores and navigates; any other reply alerts the server message; storage is written exactly when the reply is ok |
| LoginPage.FailureText | waytopg/src/components/login.tsx:42 | the server message when non-empty, otherwise the fallback text |
| LoginPage.SubmitLogin | waytopg/src/components/login.tsx:15-48 | the error is cleared first on every submit; an ok reply stores and navigates; a failed reply shows the message or the fallback; a thrown request shows the fallback; storage is written exactly when the reply is ok |
| Scenarios.SignedUpUserIsFound | server/routes/auth.js:93 | after a successful signup, the login lookup by that email and role finds the new user |
| Scenarios.SignupThenLogin | server/routes/auth.js:22-113 | a student or admin who just signed up logs in with the same credentials and gets the same claims and role |
| Scenarios.OwnerWaitsForApproval | server/routes/admin.js:16-28 | an owner who just signed up gets 403 at login, the admin's approval succeeds, and the owner's login then succeeds |
| Scenarios.NoTokensNoAdmission | server/middleware/auth.js:32-43 | against users with no stored tokens the middleware admits no request |
| Scenarios.NoRouteIssuesStoredTokens | server/models/user.js:4-12 | no sequence of signups and approvals gives any user a stored token |
| Scenarios.EveryGateCloses | server/middleware/auth.js:32-43 | starting from an empty store, every role gate refuses every request after any sequence of signups and approvals |

## Left out

- I/O and plumbing are not modelled. This covers the MongoDB connection, Express wiring, CORS and server start-up (`server/server.js`), and the client's `fetch` and JSON decoding, `localStorage`, `alert`, `navigate` and React state scheduling. Their effects are values, and `fetch` is a function parameter.
- bcrypt and JWT are stand-ins, not cryptography. `Hash` is an injective tagging, `Compare` is equality with it, and `jwt.sign` is the claims it signs. `jwt.verify` is an arbitrary parameter. The library's own expiry check surfaces as an error name other than `JsonWebTokenError`, which the middleware answers with 500.
- Store errors inside handlers are not modelled. The in-memory store does not fail, so the catch blocks' 500 answers ("Error fetching users", "Error approving owner", "Error fetching accommodations", "Error fetching bookings") are not reached. A store error during the middleware's lookup is modelled.
- AdminRoutes.ApproveOwner: ids are always castable, so an `:id` that is not a valid ObjectId string is not modelled. In the code, `findById` throws a cast error inside the `try` (server/routes/admin.js:18, 25-27), and such an id gets 500 "Error approving owner" rather than 404.
- Request fields with the wrong JSON type are not modelled. The model does not cover a non-string role, a numeric password, or an `undefined` email, password or role used as a lookup key. Signup and login keys are plain strings, because what `undefined` means inside a Mongo filter depends on driver settings.
- The cookie token source is modelled as the code reads it. No cookie parser is mounted in `server/server.js`, so `req.cookies` is undefined in the running server; the model lets the caller say whether a cookie value is present.
- Date parsing is not modelled. Dates are day numbers, and `new Date` on a chosen input is a function parameter. An unparseable date on the client (an invalid `Date`, whose comparisons are false) is not modelled.
- Floating point is not modelled. Prices and ratings are integers, and the formatting and the random review count on the detail page are display-only.
- `toLowerCase` handles ASCII letters only. There is no Unicode case mapping.
- Concurrency is not modelled. Two requests racing on the same email, for example, are out of scope. The unique index on email is modelled only through the signup check that precedes it.
- The add-accommodation form's submit and its multipart body are not modelled. The owner route reads a JSON body, and the model covers only the create handler.
- Several features are absent from the code, so the model has none of them: account lockout, failed-attempt counters, rate limiting, logout, token lists being written, 24-hour token expiry, and password reset.
- Users.CompareOnlyOwnHash: holds of the stand-in only. bcrypt uses just the first 72 bytes of a password, so two passwords that agree on those bytes compare equal against each other's hash. No other property of the model depends on this lemma; they use only that a password compares against its own hash.
- The `tokens.token` filter of the middleware's lookup is assumed to reach the store. The schema does not declare that path. Under a Mongoose version whose `strictQuery` removes undeclared filter paths, the lookup becomes `findOne({ _id })`, and any verified token of an existing user is admitted. The Mongoose version is not part of this model. Scenarios.NoTokensNoAdmission, Scenarios.NoRouteIssuesStoredTokens and Scenarios.EveryGateCloses hold only under this assumption.
- Scenarios.SignupThenLogin: "the same claims" holds of the modelled claims `{ userId, role }` only. `jwt.sign` also adds an `iat` issue time by default, so the login token is generally a different string from the signup token.
- OwnerRoutes.CreateAccommodationFor: a client-supplied `_id` in the body is not modelled. The document constructor keeps it, and the save answers 400 when it is uncastable or already stored. The model always assigns the next id, so it never gives this 400.
- StudentRoutes.CreateBookingFor: a client-supplied `_id` in the body is not modelled. The document constructor keeps it, and the save answers 400 when it is uncastable or already stored. The model always assigns the next id, so it never gives this 400.
