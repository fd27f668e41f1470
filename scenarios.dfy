/** Runs of several handlers in a row, on fresh objects: what the app does
    across a login, a reload, a late reply, a booking, the end of a ride,
    a review, a registration and the audit-log page. */
module Scenarios {
  import opened Common
  import Session
  import BookRide
  import ActiveRide
  import MyRides
  import Register
  import Server
  import Logs

  /** Login followed by a page reload restores the same user from the
      snapshot, with no trip tracked until a trip check runs. */
  method LoginThenReload(saved: Option<User>, u: User) returns (restored: Option<User>, trip: Option<Trip>)
    ensures restored == Some(u) && trip == None
  {
    var app := new Session.AppSession.Start(saved);
    app.HandleLogin(u);
    app.Reload();
    restored, trip := app.user, app.activeTrip;
  }

  /** Logout after a trip check clears everything: a reload finds no
      snapshot, and every protected page sends the visitor to /login. */
  method LogoutClearsSession(u: User, trips: seq<Trip>) returns (restored: Option<User>, view: Session.View)
    ensures restored == None
    ensures view == Session.RedirectTo(Session.LoginPath)
  {
    var app := new Session.AppSession.Start(None);
    app.HandleLogin(u);
    var _ := app.CheckActiveTrip(Done(trips));
    app.HandleLogout();
    app.Reload();
    restored := app.user;
    view := app.CurrentView(Session.DashboardPath);
  }

  /** A trip check started while signed in and answered after logout
      still installs the fetched trip: nothing ties the reply to the
      session that asked. The route table hides it only because no user is
      present. */
  method LateTripCheckAfterLogout(u: User, trips: seq<Trip>)
    returns (user: Option<User>, trip: Option<Trip>, view: Session.View)
    ensures user == None
    ensures trip == Session.OngoingTrip(trips)
    ensures view == Session.RedirectTo(Session.DashboardPath)
  {
    var app := new Session.AppSession.Start(None);
    app.HandleLogin(u);
    var request := app.RequestedId();
    assert request == Some(u.userId);
    app.HandleLogout();
    app.CompleteTripCheck(Done(trips));
    user, trip := app.user, app.activeTrip;
    view := app.CurrentView(Session.ActiveRidePath);
  }

  /** A profile refresh started while signed in and answered after logout
      signs the fetched user back in and persists it, so it survives a
      reload too. */
  method LateRefreshAfterLogout(u: User, fetched: User)
    returns (user: Option<User>, afterReload: Option<User>, view: Session.View)
    ensures user == Some(fetched) && afterReload == Some(fetched)
    ensures view == Session.Show(Session.DashboardPath)
  {
    var app := new Session.AppSession.Start(None);
    app.HandleLogin(u);
    var request := app.RequestedId();
    assert request == Some(u.userId);
    app.HandleLogout();
    app.CompleteRefresh(Done(fetched));
    user := app.user;
    app.Reload();
    afterReload := app.user;
    view := app.CurrentView(Session.DashboardPath);
  }

  /** Booking a two-hour ride at 20 an hour with 100 in the wallet: the
      booking call goes out with the clamped duration, and once the
      booking-complete callback re-checks trips, /active-ride renders. */
  method BookingEndToEnd(uid: int, station: Station, vehicle: Vehicle, tripId: int)
    returns (steps: seq<BookRide.Step>, view: Session.View)
    requires vehicle.ratePerHour == 20.0
    ensures steps == [BookRide.BookCall(uid, vehicle.vehicleId, station.stationId, 2), BookRide.RefreshUser,
                      BookRide.BookingComplete, BookRide.NavigateTo(Session.ActiveRidePath)]
    ensures view == Session.Show(Session.ActiveRidePath)
  {
    var user := User(uid, "Rider", Some(100.0), "user", Some(0.0));
    var app := new Session.AppSession.Start(None);
    app.HandleLogin(user);
    var page := new BookRide.BookRidePage([station]);
    page.SelectStation(station.stationId, Done([vehicle]));
    page.SelectVehicle(vehicle);
    page.EditDuration(Some(2));
    assert page.CostFor(user) == 40.0;
    steps := page.Book(user, Done(()));
    var _ := app.RefreshUserData(Done(user));
    var _ := app.HandleBookingComplete(Done([Trip(tripId, "Ongoing")]));
    view := app.CurrentView(Session.ActiveRidePath);
  }

  /** Ending the tracked ride: the page's success steps refresh the user
      and clear the trip, after which /active-ride redirects to /dashboard
      and the page's target /my-rides renders. */
  method EndRideClearsTrip(u: User, trip: Trip, end: Station, refreshed: User)
    returns (steps: seq<ActiveRide.Step>, activeView: Session.View, landed: Session.View)
    requires trip.status == "Ongoing"
    ensures steps == ActiveRide.AFTER_SUCCESS
    ensures activeView == Session.RedirectTo(Session.DashboardPath)
    ensures landed == Session.Show(Session.MyRidesPath)
  {
    var app := new Session.AppSession.Start(None);
    app.HandleLogin(u);
    var _ := app.CheckActiveTrip(Done([trip]));
    assert app.activeTrip == Some(trip);
    var page := new ActiveRide.ActiveRidePage(trip);
    page.SelectEndStation(end);
    var call := page.BeginEndRide(true);
    steps := page.FinishEndRide(Done(()));
    var _ := app.RefreshUserData(Done(refreshed));
    var _ := app.HandleRideEnded(Done(refreshed));
    activeView := app.CurrentView(Session.ActiveRidePath);
    landed := app.CurrentView(Session.MyRidesPath);
  }

  /** A ride showing the review button is one the server's status check
      accepts: a star rating sent for it is stored the first time and
      refused as a duplicate the second time. */
  method ReviewOfCompletedRide(tripId: int, row: Server.TripRow, rating: int, comment: string)
    returns (first: Server.Response<()>, second: Server.Response<()>)
    requires MyRides.HasReviewButton(Trip(tripId, row.status))
    requires 1 <= rating <= 5
    ensures first == Server.Ok(201, ())
    ensures second == Server.Err(400, Server.REVIEW_EXISTS)
  {
    var store := new Server.Store(Server.Tables(map[], map[], map[tripId := row], map[], map[], map[], map[], map[]));
    assert Server.RatingProblem(Server.Whole(rating)).None?;
    first := store.AddReview(tripId, Server.Whole(rating), Some(comment));
    second := store.AddReview(tripId, Server.Whole(rating), Some(comment));
  }

  /** A top-up that passes the registration page's checks against the
      loaded plan is enough for the server: the new account (balance 0)
      gets the top-up, the purchase goes through, and the balance left is
      the top-up less the cost, never negative. Plan and user ids must be
      non-zero, since the server reads 0 as missing. */
  method RegistrationFundsPurchase(uid: int, email: string, password: string, pid: int, plan: Server.PlanRow, topup: real)
    returns (funded: Server.Response<real>, purchased: Server.Response<string>, balance: real)
    requires uid != 0 && pid != 0
    requires Register.Validate(Number(topup), Some(pid), [Plan(pid, plan.cost)]) == Register.NoError
    ensures funded == Server.Ok(200, topup)
    ensures purchased == Server.Ok(200, Server.PURCHASED)
    ensures balance == topup - plan.cost && balance >= 0.0
  {
    var account := Server.UserRow("Rider", email, Server.Hash(password), 0.0, "user", None);
    var store := new Server.Store(Server.Tables(map[uid := account], map[pid := plan], map[], map[], map[], map[], map[], map[]));
    funded := store.AddToWallet(uid, Server.Amount(topup));
    purchased := store.PurchaseMembership(Some(uid), Some(pid));
    balance := store.users[uid].wallet;
  }

  /** Against a stored account, login succeeds with the registered
      password and fails with 401 for any other one. */
  method LoginWithStoredPassword(uid: int, email: string, password: string, other: string)
    returns (accepted: Server.Response<Server.UserView>, refused: Server.Response<Server.UserView>)
    requires other != password
    ensures accepted.Ok? && accepted.body.userId == uid && accepted.body.email == email
    ensures refused == Server.Err(401, Server.INVALID_PASSWORD)
  {
    var account := Server.UserRow("Rider", email, Server.Hash(password), 0.0, "user", None);
    var store := new Server.Store(Server.Tables(map[uid := account], map[], map[], map[], map[], map[], map[], map[]));
    assert store.users[uid].email == email && store.users[uid].passwordHash == Server.Hash(password);
    accepted := store.Login(email, password);
    Server.HashInjective(other, password);
    refused := store.Login(email, other);
  }

  /** An admin opens the audit-log page and then changes the limit: the
      table view renders, but each load fails the same way and no row is
      ever shown. */
  method AdminLogsNeverLoad(admin: User, typed: Option<int>)
    returns (view: Logs.View, rows: seq<Logs.LogEntry>, error: string, limit: int)
    requires admin.role == "admin"
    ensures view == Logs.LogTable
    ensures rows == [] && error == Logs.LOGS_FAILED
    ensures limit == Logs.ClampLimit(typed) && 1 <= limit <= Logs.MAX_LIMIT
  {
    var page := new Logs.LogsPage(Some(admin));
    page.LoadLogs();
    page.EditLimit(typed);
    page.LoadLogs();
    view := Logs.PageView(page.user);
    rows, error, limit := page.logs, page.error, page.limit;
  }

  /** The discount the server can send never makes a ride cost more than
      its full price, nor less than nothing. */
  lemma {:induction false} ServerDiscountBoundsCost(rate: real, hours: real, planName: Option<string>)
    requires 0.0 <= rate && 0.0 <= hours
    ensures 0.0 <= BookRide.Cost(rate, hours, Server.PlanDiscount(planName)) <= rate * hours
  {
    BookRide.CostWithinFullPrice(rate, hours, 0.0, Server.PlanDiscount(planName));
  }
}
