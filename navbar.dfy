/** The navigation bar (frontend/src/components/Navbar.js), rendered by
    App only while a user is signed in: which links it shows, the balance
    it prints, and its logout button. */
module Navbar {
  import opened Common
  import Session

  /** The bar's links, in the order they are rendered. */
  datatype Link = DashboardLink | StationsLink | VehiclesLink | BookLink | MyRidesLink
                | TechniciansLink | ActiveRideLink | ProfileLink

  /** Where a link points. App's route table has no /technicians entry, so
      that link falls on an unlisted path. */
  function Target(link: Link): (path: Session.Path)
  {
    match link
    case DashboardLink => Session.DashboardPath
    case StationsLink => Session.StationsPath
    case VehiclesLink => Session.VehiclesPath
    case BookLink => Session.BookPath
    case MyRidesLink => Session.MyRidesPath
    case TechniciansLink => Session.Unlisted
    case ActiveRideLink => Session.ActiveRidePath
    case ProfileLink => Session.ProfilePath
  }

  /** The five fixed links, the Technicians link for an admin, the Active
      Ride link while a trip is tracked, then Profile. */
  function Links(user: User, activeTrip: Option<Trip>): (links: seq<Link>)
    ensures TechniciansLink in links <==> user.role == "admin"
    ensures ActiveRideLink in links <==> activeTrip.Some?
    ensures 6 <= |links| <= 8
    ensures links[..5] == [DashboardLink, StationsLink, VehiclesLink, BookLink, MyRidesLink]
    ensures links[|links| - 1] == ProfileLink
    ensures forall i, j :: 0 <= i < j < |links| ==> links[i] != links[j]
  {
    [DashboardLink, StationsLink, VehiclesLink, BookLink, MyRidesLink]
    + (if user.role == "admin" then [TechniciansLink] else [])
    + (if activeTrip.Some? then [ActiveRideLink] else [])
    + [ProfileLink]
  }

  /** Every link but Technicians opens its own page under the route table
      in the state that rendered the bar; the Technicians link matches no
      route at all. */
  lemma LinksOpenTheirPages(user: User, activeTrip: Option<Trip>, link: Link)
    requires link in Links(user, activeTrip)
    ensures link != TechniciansLink ==>
              Session.Route(true, activeTrip.Some?, Target(link)) == Session.Show(Target(link))
    ensures link == TechniciansLink ==> Session.Route(true, activeTrip.Some?, Target(link)) == Session.NoMatch
  {
    if link == ActiveRideLink {
      assert activeTrip.Some?;
    }
  }

  /** The balance shown next to the name: the parsed wallet balance when
      it is a finite number, 0 otherwise (the two-decimal formatting is not
      modelled). */
  function DisplayBalance(wallet: Option<real>): (shown: real)
    ensures wallet.Some? ==> shown == wallet.value
    ensures wallet.None? ==> shown == 0.0
  {
    if wallet.Some? then wallet.value else 0.0
  }

  /** handleLogout: App's logout handler runs, then the router replaces
      the current history entry with /login. */
  datatype Step = RunOnLogout | Navigate(path: Session.Path, replace: bool)

  const LOGOUT_STEPS := [RunOnLogout, Navigate(Session.LoginPath, true)]

  /** After the logout steps run against App's state, the bar is gone and
      the /login page renders, whatever the state was before. */
  method Logout(app: Session.AppSession) returns (steps: seq<Step>, landed: Session.View)
    modifies app
    ensures steps == LOGOUT_STEPS
    ensures app.user.None? && app.activeTrip.None? && app.snapshot.None?
    ensures landed == Session.Show(Session.LoginPath)
  {
    steps := LOGOUT_STEPS;
    app.HandleLogout();
    landed := app.CurrentView(Session.LoginPath);
  }
}
