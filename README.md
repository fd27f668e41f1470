# Ride-Ease rules in Dafny

Ride-Ease is a small electric-vehicle rental app. It has a React client and a Flask server over MySQL. This project models the rules that decide what the app does, and proves properties of them:

- **The client session** (`frontend/src/App.js`):
  - the class `Session.AppSession` holds the `user` and `activeTrip` state cells and the `localStorage['user']` snapshot;
  - it has the handlers that change them;
  - `Session.Route` is the route table, a pure function of "a user is present", "a trip is tracked" and the path.
- **The pages**. Each is a class whose fields are the page's React state:
  - the booking page: the cost formula, the duration clamp and the two booking checks;
  - ending and cancelling a ride;
  - the ride history with its review modal;
  - the two-step registration;
  - membership top-up and purchase;
  - the profile editor;
  - the navigation bar;
  - the audit-log page.
- **The server rules** (`app.py`). They run over the class `Server.Store`, which keeps one map per table. The rules covered:
  - the plan-to-discount mapping;
  - login;
  - the profile read;
  - wallet top-up;
  - reviews;
  - membership purchase;
  - technician update and delete;
  - completion of a maintenance log.
- **Scenarios** (`scenarios.dfy`) chain several handlers on fresh objects. Examples:
  - login, then reload;
  - a refresh that is answered after logout;
  - booking through to `/active-ride`;
  - a registration whose server calls all succeed.

How the outside world is modelled:

- **Remote calls** are inputs. An awaited API call is a `Remote<T>` parameter: either `Done(value)` or `Failed(message)`. `message` is the server's `error` text, when the server sent one.
- **Handler output**. Each handler returns the trace of calls, callbacks and navigations it performs, in order, and updates its page's fields.
- **`window.confirm`** is a boolean input.
- **Text fields** are `NumberInput` (`Blank`, `NotANumber` or `Number(real)`). That is what `parseFloat` makes of the text. `parseInt` results are `Option<int>`.
- **Money** is exact `real`.
- **`ActiveRide` handlers** are each split at their await into `Begin…` and `Finish…`. That way "the flag is set during the call" can be stated.
- **`checkActiveTrip` and `refreshUserData`** are split in the same way. Before the await, both run the same guard, `RequestedId`. After it comes `CompleteTripCheck` or `CompleteRefresh`. That way a reply that arrives after logout can be modelled.

## What the code does, as opposed to what a reader might expect

The model follows the code:

- **No session guard.** No epoch or identity check ties a late trip-check or profile reply to the session that asked for it. `Scenarios.LateTripCheckAfterLogout` and `Scenarios.LateRefreshAfterLogout` show the consequences. After logout, the second one signs the fetched user back in, and persists that user.
- **No id check.** `handleUserUpdate` replaces the user without comparing ids.
- **No startup validation.** At startup the snapshot is restored as it is, with no remote check.
- **No membership gate** on any route.
- **No 24-hour cap** on the booking duration. The handler clamps only from below, so 25 passes.
- **Missing routes.** The route table has no `/technicians`, `/membership` or `/logs` entry. So the admin's Technicians link in the bar falls on no route (`Navbar.LinksOpenTheirPages`). The membership and log pages are modelled as the components they are.
- **The log page never loads.** `Logs.js` imports `getLogs` from the API module, which exports no such function, and the server has no log route. So the load throws before any request is sent, whatever the role. It always ends on 'Failed to load logs' and shows no rows. An admin gets the table view, but the table stays empty (`Scenarios.AdminLogsNeverLoad`).
- **Register's top-up check.** An unparsable top-up passes the registration checks, because NaN compares false. `Register.Validate` keeps that case. Its `NoError` clause allows `NotANumber`, and the value is then sent as `AddFundsCall(…, None)`. With the browser's number inputs, such text normally reads as empty.
- **Fractional ratings.** The server runs `int()` on a JSON rating. A fractional rating is therefore truncated: 5.9 is stored as 5 (`Server.FractionalRatings`).
- **Falsy ids.** The purchase route treats an id of 0 as missing.

## Model

| member | source | states |
|---|---|---|
| `Common.ErrorText` | frontend/src/pages/BookRide.js:89 | the banner is the server's message when it sent a non-empty one, otherwise the page's fallback; it is never empty when the fallback is not |
| `Common.Parsed` | frontend/src/pages/Register.js:43 | the number `parseFloat` yields exists exactly when the field reads as a number, and it is that number |
| `Common.FirstWhere` | frontend/src/App.js:40 | `find`: None exactly when no element satisfies the predicate; otherwise an element that does, and none before it does |
| `Common.FirstWhereAt` | frontend/src/App.js:40 | the element found is the one at the first index where the predicate holds |
| `Session.OngoingTrip` | frontend/src/App.js:40-45 | the tracked trip is the first trip with status 'Ongoing', or None exactly when no trip has it |
| `Session.Route` | frontend/src/App.js:91-130 | no route matches exactly the unlisted paths; a rendered page is the one asked for; every redirect goes to /login or /dashboard, and to /login only when signed out; signed out, only /login and /register render |
| `Session.SignedOutRoutes` | frontend/src/App.js:91-118 | with no user, /login and /register render, every other listed protected path redirects to /login, and navigation ends on /login |
| `Session.SignedInRoutes` | frontend/src/App.js:91-130 | with a user, /login, /register and / redirect to /dashboard and the other listed pages except /active-ride render |
| `Session.ActiveRideRoute` | frontend/src/App.js:119-122 | /active-ride renders exactly when a user and a trip are both present, otherwise it redirects to /dashboard |
| `Session.Land` | frontend/src/App.js:91-130 | following the redirects of the table always ends on a page or on no match, never on another redirect |
| `Session.AppSession.Start` | frontend/src/App.js:16-26 | mount: the user is the stored snapshot if there is one, no trip is tracked, nothing is checked remotely |
| `Session.AppSession.Reload` | frontend/src/App.js:20-26 | a reload loses the state cells and restores the user from the snapshot |
| `Session.AppSession.HandleLogin` | frontend/src/App.js:51-54 | user and snapshot become the logged-in user; the tracked trip is untouched |
| `Session.AppSession.HandleLogout` | frontend/src/App.js:56-60 | user, trip and snapshot are all cleared |
| `Session.AppSession.HandleUserUpdate` | frontend/src/App.js:71-74 | user and snapshot become the argument unconditionally |
| `Session.AppSession.RequestedId` | frontend/src/App.js:35-38 | the guard that checkActiveTrip and refreshUserData (App.js:76-79) share: a fetch is issued exactly when a user is present, for that user's id |
| `Session.AppSession.CompleteTripCheck` | frontend/src/App.js:38-48 | a fetched list sets the trip to its first ongoing trip or None; a failure leaves it |
| `Session.AppSession.CheckActiveTrip` | frontend/src/App.js:35-49 | no user: nothing fetched, nothing changes; otherwise as the two halves above |
| `Session.AppSession.CompleteRefresh` | frontend/src/App.js:79-83 | a fetched profile replaces user and snapshot; a failure changes nothing |
| `Session.AppSession.RefreshUserData` | frontend/src/App.js:76-84 | no user: a no-op; failure leaves the user; the trip is never touched |
| `Session.AppSession.HandleRideEnded` | frontend/src/App.js:62-65 | the trip is cleared, then the user refreshed as above |
| `Session.AppSession.HandleBookingComplete` | frontend/src/App.js:67-69 | re-runs the trip check |
| `BookRide.CostNumber` | frontend/src/pages/BookRide.js:51-57 | 0 with no vehicle or unparsable hours; otherwise rate × hours × (1 − discount), with discount 0 when it is not a number |
| `BookRide.CostExamples` | frontend/src/pages/BookRide.js:53-56 | rate 10 for 2 hours at discount 0.1 costs 18; rate 10 for 1 hour without a discount costs 10 |
| `BookRide.CostWithinFullPrice` | frontend/src/pages/BookRide.js:56 | for a discount in [0, 1] the cost lies between 0 and the full price, and a larger discount never costs more |
| `BookRide.ClampDuration` | frontend/src/pages/BookRide.js:210 | the duration is at least 1; values of 1 or more pass through unchanged; unparsable, 0 or negative input gives 1 |
| `BookRide.DurationExamples` | frontend/src/pages/BookRide.js:210 | concrete clamps, including 25 passing through (no 24-hour cap) |
| `BookRide.BookBlocker` | frontend/src/pages/BookRide.js:60-69 | the selection check comes first, then the balance against the unrounded cost; no error exactly when both pass |
| `BookRide.BookRidePage.constructor` | frontend/src/pages/BookRide.js:6-14 | initial page state with the loaded stations and a duration of 1 |
| `BookRide.BookRidePage.CostFor` | frontend/src/pages/BookRide.js:51-57 | the page's cost is 0 with no vehicle, otherwise the selected vehicle's rate for the chosen hours at the user's discount (0 when missing) |
| `BookRide.BookRidePage.ConfirmDisabled` | frontend/src/pages/BookRide.js:226 | the confirm button is disabled while a booking is in flight, otherwise exactly when the wallet is short of the unrounded cost; never for balance when no balance is known |
| `BookRide.BookRidePage.SelectStation` | frontend/src/pages/BookRide.js:34-49 | the station is looked up by id, the vehicle selection is cleared, the station's vehicles are loaded or an error is set |
| `BookRide.BookRidePage.SelectVehicle` | frontend/src/pages/BookRide.js:166 | the clicked vehicle becomes the selection |
| `BookRide.BookRidePage.EditDuration` | frontend/src/pages/BookRide.js:210 | the duration becomes the clamped input and stays at least 1 |
| `BookRide.BookRidePage.Book` | frontend/src/pages/BookRide.js:60-93 | a failed check sets its message and makes no call; otherwise the booking call, then on success the awaited user refresh, the booking-complete callback and /active-ride in that order; on failure the server message or the fallback; `booking` reset either way |
| `BookRide.ConfirmDisabledMatchesBook` | frontend/src/pages/BookRide.js:226 | with a selection and no booking in flight, the confirm button is disabled exactly when handleBook would refuse for balance |
| `BookRide.ShortWalletIsRefused` | frontend/src/pages/BookRide.js:66-69 | wallet 5 against a one-hour ride at rate 10 is refused |
| `ActiveRide.ActiveRidePage.constructor` | frontend/src/pages/ActiveRide.js:5-10 | initial state for the tracked trip |
| `ActiveRide.ActiveRidePage.SelectEndStation` | frontend/src/pages/ActiveRide.js:138 | the clicked station becomes the end station |
| `ActiveRide.ActiveRidePage.BeginEndRide` | frontend/src/pages/ActiveRide.js:32-43 | no end station: an error and no call; a declined confirmation: no call and no flag change; otherwise the endRide call with `ending` set and the error cleared |
| `ActiveRide.ActiveRidePage.FinishEndRide` | frontend/src/pages/ActiveRide.js:45-58 | success: user refresh, then ride-ended callback, then /my-rides; failure: the message or 'Failed to end ride' and no callbacks; `ending` false afterwards |
| `ActiveRide.ActiveRidePage.BeginCancelTrip` | frontend/src/pages/ActiveRide.js:61-67 | no station precondition; a declined confirmation makes no call; otherwise the cancel call with `cancelling` set |
| `ActiveRide.ActiveRidePage.FinishCancelTrip` | frontend/src/pages/ActiveRide.js:69-82 | the same success sequence as ending; failure shows the message or 'Failed to cancel trip'; `cancelling` false afterwards |
| `MyRides.MyRidesPage.constructor` | frontend/src/pages/MyRides.js:4-12 | initial state: closed modal, rating 5 |
| `MyRides.MyRidesPage.RidesLoaded` | frontend/src/pages/MyRides.js:18-27 | a fetched list replaces the rides, a failure keeps them, loading ends |
| `MyRides.MyRidesPage.Reviewable` | frontend/src/pages/MyRides.js:154 | the rides with a review button are exactly the completed ones |
| `MyRides.MyRidesPage.SetRating` | frontend/src/pages/MyRides.js:186 | a star sets the rating |
| `MyRides.MyRidesPage.SetComment` | frontend/src/pages/MyRides.js:201 | the comment field |
| `MyRides.MyRidesPage.OpenReviewModal` | frontend/src/pages/MyRides.js:47-52 | the modal opens on the ride's id and resets rating to 5, comment and error to '' |
| `MyRides.MyRidesPage.CloseReviewModal` | frontend/src/pages/MyRides.js:54-59 | the modal closes with the same defaults |
| `MyRides.MyRidesPage.SubmitReview` | frontend/src/pages/MyRides.js:61-81 | a rating outside [1, 5] sets an error and makes no call; success shows the banner, closes the modal and refetches; failure keeps the modal open with the error |
| `Register.Validate` | frontend/src/pages/Register.js:43-68 | the four checks in order, each error exactly under its condition: blank or non-positive top-up, no plan, plan not in the loaded list, top-up below the plan's cost |
| `Register.RegisterPage.constructor` | frontend/src/pages/Register.js:5-28 | initial state at step 1 with the loaded plans |
| `Register.RegisterPage.EditAccount` | frontend/src/pages/Register.js:125-157 | the account fields |
| `Register.RegisterPage.EditPlanAndTopup` | frontend/src/pages/Register.js:223-253 | the plan and top-up fields |
| `Register.RegisterPage.AccountSubmit` | frontend/src/pages/Register.js:30-34 | step 1 only moves to step 2 and clears the error |
| `Register.RegisterPage.BackToAccount` | frontend/src/pages/Register.js:271 | the Back button returns to step 1 |
| `Register.RegisterPage.CompleteRegistration` | frontend/src/pages/Register.js:36-92 | a failed check makes no call; otherwise register, login, addToWallet with the top-up and purchase with the new id, strictly in that order and stopping at the first failure with its message; success only after all four, and then the error is cleared |
| `Membership.MembershipPage.constructor` | frontend/src/pages/Membership.js:4-10 | initial state |
| `Membership.MembershipPage.PlansLoaded` | frontend/src/pages/Membership.js:12-24 | loaded plans, or 'Failed to load plans'; loading ends |
| `Membership.MembershipPage.EditTopup` | frontend/src/pages/Membership.js:97 | the top-up field |
| `Membership.MembershipPage.Topup` | frontend/src/pages/Membership.js:26-42 | an amount that is not a positive number sets an error and makes no call; otherwise addToWallet, profile fetch, user update; only full success clears the field and shows the banner |
| `Membership.MembershipPage.Purchase` | frontend/src/pages/Membership.js:44-62 | a wallet short of the plan's cost sets an error and makes no call; success hands the fetched profile to the callback and goes to /dashboard; `purchasing` false afterwards |
| `Profile.PasswordArg` | frontend/src/pages/Profile.js:45 | an empty password is sent as null, any other as itself |
| `Profile.ProfilePage.constructor` | frontend/src/pages/Profile.js:4-15 | initial state |
| `Profile.ProfilePage.ProfileLoaded` | frontend/src/pages/Profile.js:21-33 | a loaded profile resets the name and clears the error; a failure sets 'Failed to load profile'; loading ends |
| `Profile.ProfilePage.StartEditing` | frontend/src/pages/Profile.js:123 | edit mode on |
| `Profile.ProfilePage.EditFields` | frontend/src/pages/Profile.js:138-228 | the form fields |
| `Profile.ProfilePage.CancelEdit` | frontend/src/pages/Profile.js:182-188 | leaves edit mode, restores the name from the loaded profile ('' without one), clears both passwords and the error |
| `Profile.ProfilePage.UpdateProfile` | frontend/src/pages/Profile.js:35-62 | the mismatch error applies only to a non-empty password and makes no call; success clears edit mode and both passwords, reloads the profile and hands the fetched one to the callback |
| `Profile.ProfilePage.AddToWallet` | frontend/src/pages/Profile.js:64-89 | an amount that is not a positive number sets an error and makes no call; success shows the amount, clears the field, reloads and refreshes |
| `Navbar.Links` | frontend/src/components/Navbar.js:28-87 | the Technicians link shows exactly for an admin, the Active Ride link exactly while a trip is tracked; five fixed links first, Profile last, none twice |
| `Navbar.LinksOpenTheirPages` | frontend/src/components/Navbar.js:59-74 | in the state that renders the bar, every link but Technicians opens its page; Technicians matches no route |
| `Navbar.DisplayBalance` | frontend/src/components/Navbar.js:13-18 | the parsed balance, or 0 when it is not a finite number |
| `Navbar.Logout` | frontend/src/components/Navbar.js:7-11 | the logout handler runs before the replace-navigation to /login, which then renders |
| `Logs.ClampLimit` | frontend/src/pages/Logs.js:58 | the limit lies in [1, 500]; unparsable or 0 gives 100, above 500 gives 500, negative gives 1, values in range pass |
| `Logs.ClampLimitIdempotent` | frontend/src/pages/Logs.js:58 | a clamped limit typed back in stays put |
| `Logs.PageView` | frontend/src/pages/Logs.js:28-36 | the log table shows exactly for an admin; everyone else sees 'Admin access required' |
| `Logs.LogsPage.constructor` | frontend/src/pages/Logs.js:4-9 | the initial limit is 100 |
| `Logs.LogsPage.EditTableFilter` | frontend/src/pages/Logs.js:50 | the filter field |
| `Logs.LogsPage.EditLimit` | frontend/src/pages/Logs.js:58 | the limit becomes the clamped input and stays in [1, 500] |
| `Logs.LogsPage.LoadLogs` | frontend/src/pages/Logs.js:11-22 | `getLogs` is not exported, so no request is sent; every load ends with 'Failed to load logs', keeps the rows it had and stops loading |
| `Server.PlanDiscount` | app.py:127-132 | Basic 0.05, Premium 0.10, Annual 0.15, anything else or no plan 0; always in [0, 0.15] |
| `Server.HashInjective` | app.py:7-8 | equal digests only from equal passwords |
| `Server.AmountProblem` | app.py:300-307 | missing, unconvertible and non-positive amounts are refused with their own messages; exactly positive amounts pass |
| `Server.TruncateTowardZero` | app.py:395 | Python's `int()` on a float truncates toward zero |
| `Server.RatingValue` | app.py:395 | which rating fields convert, and to what |
| `Server.RatingProblem` | app.py:395-402 | a rating passes exactly when it converts to an integer in [1, 5]; otherwise the conversion or the range message |
| `Server.FractionalRatings` | app.py:395-402 | a fractional rating passes exactly when it lies in [1, 6) |
| `Server.ApplyAllSnoc` | app.py:753-754 | applying a list of SET items then one more is applying the longer list |
| `Server.CollectUpdates` | app.py:736-750 | only a truthy name, a truthy specialization and a present availability are collected; the list is empty exactly when none is given; applying it changes exactly those columns |
| `Server.Relieved` | app.py:868-873 | the decrement happens only while the count is positive, so no workload goes negative and no other technician changes |
| `Server.Store.ViewOf` | app.py:122-136 | the user object carries the row's columns except the password, and the discount of the joined plan |
| `Server.Store.GetUserProfile` | app.py:227-258 | 404 'User not found' exactly for an unknown id; otherwise 200 with the user object |
| `Server.Store.Login` | app.py:112-147 | 404 exactly when no row has the e-mail, 401 exactly for a digest mismatch, otherwise 200 with the same user object the profile route gives |
| `Server.Store.AddToWallet` | app.py:295-318 | the amount checks, then 404 for an unknown user; otherwise the balance grows by exactly the amount and no other table changes |
| `Server.Store.AddReview` | app.py:388-429 | the rating checks, 404 for an unknown trip, refusal unless Completed, refusal of a second review; otherwise 201 and a review copying the trip's user and vehicle |
| `Server.Store.PurchaseMembership` | app.py:452-480 | falsy ids 400, unknown plan or user 404, a short balance refused with no change; otherwise the balance drops by exactly the cost and the plan is recorded; balances stay non-negative |
| `Server.Store.UpdateTechnician` | app.py:717-764 | 403 for non-admins, 'No fields to update' when nothing is given, 404 for an unknown technician; otherwise exactly the given columns change |
| `Server.Store.DeleteTechnician` | app.py:768-801 | 403, 404, refusal while assignments are active; deletion exactly when the admin targets an idle technician |
| `Server.Store.CompleteMaintenanceLog` | app.py:828-886 | 403, 404 without an assignment, refusal of a completed log; otherwise the log is Completed, the workload drops only while positive, the vehicle is available |
| `Scenarios.LoginThenReload` | frontend/src/App.js:20-26 | login followed by a reload restores the same user |
| `Scenarios.LogoutClearsSession` | frontend/src/App.js:56-60 | after logout a reload finds no user and protected pages redirect to /login |
| `Scenarios.LateTripCheckAfterLogout` | frontend/src/App.js:35-49 | a trip reply that arrives after logout is still installed |
| `Scenarios.LateRefreshAfterLogout` | frontend/src/App.js:76-84 | a profile reply that arrives after logout signs that user back in, and this survives a reload |
| `Scenarios.BookingEndToEnd` | frontend/src/pages/BookRide.js:60-93 | a two-hour booking at 20 an hour with 100 in the wallet goes out and ends with /active-ride rendered |
| `Scenarios.EndRideClearsTrip` | frontend/src/pages/ActiveRide.js:45-53 | after a ride ends, /active-ride redirects and /my-rides renders |
| `Scenarios.ReviewOfCompletedRide` | app.py:409-429 | a ride with a review button is accepted by the server once, then refused as a duplicate |
| `Scenarios.RegistrationFundsPurchase` | frontend/src/pages/Register.js:64-81 | a top-up that passes the page's checks is enough for the server's purchase; the balance left is top-up minus cost and is non-negative |
| `Scenarios.LoginWithStoredPassword` | app.py:139-147 | login accepts the registered password and refuses every other one with 401 |
| `Scenarios.AdminLogsNeverLoad` | frontend/src/pages/Logs.js:11-36 | an admin sees the table view, but after loading and a limit change no row has been shown and the error is 'Failed to load logs'; the limit stays clamped |
| `Scenarios.ServerDiscountBoundsCost` | app.py:127-132 | any discount the server sends keeps the ride cost between 0 and full price |

## Left out

- HTTP and axios plumbing (`frontend/src/utils/api.js`, `fetch`) and the Flask routing and JSON envelopes. A remote call is an input outcome.
- MySQL connection handling, transactions, `FOR UPDATE` locking and rollback. These are I/O and database concurrency.
- The generic `except Exception` replies (400 with the exception text). These cover database errors.
- Python exceptions the routes do not catch. Examples: `float(None)` for a null amount, which Flask turns into an error page. Such cases are not among the modelled field shapes.
- The stored procedures behind booking, ending, cancelling and issue reports. Their bodies are `sp_CreateBooking`, `sp_EndRide`, `sp_CancelTrip` and `sp_ReportAndAssignMaintenance`, and none of them is part of this model. Fares, refunds and vehicle moves are therefore not modelled, and those routes are not modelled either: issue reports (app.py:40-78), booking and ending a ride (app.py:158-193) and cancelling a trip (app.py:365-386).
- SHA-256. The digest is an injective tag (`Server.Hash`).
- Server.Store.Login: the e-mail is matched by exact string equality. Under MySQL's default collation, SQL `=` ignores case, so 'Alice@X.com' would find the row of 'alice@x.com', where the model answers 404. The same holds for e-mail uniqueness in `Server.Store.Valid`. Collations are outside the model.
- Server.PlanDiscount: plan names are compared by exact equality, not under the database collation. A differently cased 'basic plan' would earn the discount in the source and 0 here.
- Cursor row counts. The model reads `rowcount == 0` as "no such row". It does not model MySQL's count of changed rather than matched rows.
- `Server.Store.AddReview`: the duplicate-review IntegrityError is modelled as a unique key on the trip.
  - The schema is not part of this model.
  - Other integrity failures are not modelled.
- `Server.Store.CompleteMaintenanceLog`: a log has at most one technician assignment, which `fetchone` would pick.
- Server routes not modelled. The client pages that call them are modelled, but their server side is not: they are plain inserts, updates and reads outside the named rules:
  - register (app.py:80-110);
  - ride history (app.py:196-225);
  - profile update (app.py:261-293);
  - stations and vehicles at a station (app.py:327-363, 487-658);
  - membership plans (app.py:437-450);
  - technician listing and adding (app.py:660-715);
  - technician assignments (app.py:805-826).
- JavaScript parsing and floating point: `parseFloat`/`parseInt` text rules, IEEE-754 rounding, `toFixed(2)` (`calculateCost` and the banner amounts) and Decimal-to-JSON conversion. `Navbar.DisplayBalance` returns the number, not the formatted text.
- React: rendering, the `[user]` effect that re-runs the trip check after every user change (App.js:28-33), `setTimeout` clearing of banners and the delayed navigation after registration.
- The station fetch failure of the booking and active-ride pages. Both pages are constructed with the stations already loaded.
- `getStatusColor` and the other presentational helpers. So are the Technicians, Stations, Vehicles and Dashboard pages, which are presentational CRUD screens.
- Optional callbacks (`onUserUpdate &&`, `if (navigateTo)`) are taken as supplied.
