/** The application root (frontend/src/App.js): the `user` and `activeTrip`
    state cells, the `localStorage['user']` snapshot, the handlers that
    change them, and the route table. */
module Session {
  import opened Common

  /** The paths of the route table; `Unlisted` is any other URL, for which
      no route matches and nothing is rendered. */
  datatype Path = LoginPath | RegisterPath | DashboardPath | StationsPath
                | VehiclesPath | BookPath | MyRidesPath | ActiveRidePath
                | ProfilePath | RootPath | Unlisted

  /** What the router does with a path: render that path's page, redirect
      with `<Navigate>`, or render nothing. */
  datatype View = Show(page: Path) | RedirectTo(target: Path) | NoMatch

  predicate IsOngoing(t: Trip) { t.status == "Ongoing" }

  /** `trips.find(trip => trip.Status === 'Ongoing')`. */
  function OngoingTrip(trips: seq<Trip>): (r: Option<Trip>)
    ensures r.Some? ==> r.value.status == "Ongoing"
    ensures r.None? <==> forall i :: 0 <= i < |trips| ==> trips[i].status != "Ongoing"
    ensures r.Some? ==> exists i :: 0 <= i < |trips| && trips[i] == r.value &&
                                    forall j :: 0 <= j < i ==> trips[j].status != "Ongoing"
  {
    FirstWhere(trips, IsOngoing)
  }

  /** The route table: a pure function of whether a user and an active
      trip are present and of the requested path. */
  function Route(signedIn: bool, tracking: bool, path: Path): (v: View)
    ensures v == NoMatch <==> path == Unlisted
    ensures v.Show? ==> v.page == path
    ensures v.RedirectTo? ==> v.target == LoginPath || v.target == DashboardPath
    ensures v == RedirectTo(LoginPath) ==> !signedIn
    ensures !signedIn && v.Show? ==> path == LoginPath || path == RegisterPath
  {
    match path
    case LoginPath | RegisterPath => if signedIn then RedirectTo(DashboardPath) else Show(path)
    case ActiveRidePath => if signedIn && tracking then Show(path) else RedirectTo(DashboardPath)
    case RootPath => RedirectTo(if signedIn then DashboardPath else LoginPath)
    case Unlisted => NoMatch
    case _ => if signedIn then Show(path) else RedirectTo(LoginPath)
  }

  /** Where a navigation ends up once every `<Navigate>` has been
      followed; the table never chains more than two redirects. */
  function Land(signedIn: bool, tracking: bool, path: Path): (v: View)
    ensures !v.RedirectTo?
  {
    match Route(signedIn, tracking, path)
    case RedirectTo(p) =>
      (match Route(signedIn, tracking, p)
       case RedirectTo(q) => Route(signedIn, tracking, q)
       case w => w)
    case w => w
  }

  /** Signed out, /login and /register render and every other listed
      path redirects to /login. */
  lemma SignedOutRoutes(tracking: bool, path: Path)
    ensures (path == LoginPath || path == RegisterPath) ==> Route(false, tracking, path) == Show(path)
    ensures path !in {LoginPath, RegisterPath, ActiveRidePath, Unlisted} ==>
              Route(false, tracking, path) == RedirectTo(LoginPath)
    ensures path != Unlisted && path != RegisterPath ==> Land(false, tracking, path) == Show(LoginPath)
  {
  }

  /** Signed in, /login, /register and / lead to /dashboard, and every
      other listed page except /active-ride renders. */
  lemma SignedInRoutes(tracking: bool, path: Path)
    ensures path in {LoginPath, RegisterPath, RootPath} ==> Route(true, tracking, path) == RedirectTo(DashboardPath)
    ensures path !in {LoginPath, RegisterPath, RootPath, ActiveRidePath, Unlisted} ==>
              Route(true, tracking, path) == Show(path)
    ensures Land(true, tracking, path) != Show(LoginPath) && Land(true, tracking, path) != Show(RegisterPath)
  {
  }

  /** /active-ride renders exactly when both a user and an active trip are
      present; otherwise it redirects to /dashboard. */
  lemma ActiveRideRoute(signedIn: bool, tracking: bool)
    ensures Route(signedIn, tracking, ActiveRidePath).Show? <==> signedIn && tracking
    ensures !(signedIn && tracking) ==> Route(signedIn, tracking, ActiveRidePath) == RedirectTo(DashboardPath)
  {
  }

  /** The state cells of App and the persisted snapshot. JSON
      serialisation of the snapshot is the identity here. */
  class AppSession {
    var user: Option<User>
    var activeTrip: Option<Trip>
    var snapshot: Option<User>

    /** Mount: both cells start empty, then the startup effect copies the
        stored snapshot, if any, into `user`; nothing is checked remotely. */
    constructor Start(saved: Option<User>)
      ensures user == saved && activeTrip == None && snapshot == saved
    {
      user := None;
      activeTrip := None;
      snapshot := saved;
      if saved.Some? {
        user := saved;
      }
    }

    /** A page reload: the state cells are lost, local storage survives,
        and the startup effect restores `user` from it. */
    method Reload()
      modifies this
      ensures user == old(snapshot) && activeTrip == None && snapshot == old(snapshot)
    {
      user := None;
      activeTrip := None;
      if snapshot.Some? {
        user := snapshot;
      }
    }

    /** What the router shows for `path` in the current state. */
    function CurrentView(path: Path): (v: View)
      reads this
    {
      Route(user.Some?, activeTrip.Some?, path)
    }

    /** handleLogin: takes the user and persists it; the trip is untouched. */
    method HandleLogin(u: User)
      modifies this
      ensures user == Some(u) && snapshot == Some(u) && activeTrip == old(activeTrip)
    {
      user := Some(u);
      snapshot := Some(u);
    }

    /** handleLogout: clears both cells and removes the snapshot. */
    method HandleLogout()
      modifies this
      ensures user == None && activeTrip == None && snapshot == None
    {
      user := None;
      activeTrip := None;
      snapshot := None;
    }

    /** handleUserUpdate: replaces user and snapshot with its argument,
        whatever the current user is (no id comparison). */
    method HandleUserUpdate(u: User)
      modifies this
      ensures user == Some(u) && snapshot == Some(u) && activeTrip == old(activeTrip)
    {
      user := Some(u);
      snapshot := Some(u);
    }

    /** The guard both checkActiveTrip and refreshUserData run before their
        await: the id whose rides or profile are fetched, or None (and no
        fetch) when no user is signed in. */
    function RequestedId(): (request: Option<int>)
      reads this
      ensures request.Some? <==> user.Some?
      ensures request.Some? ==> request.value == user.value.userId
    {
      if user.None? then None else Some(user.value.userId)
    }

    /** The part of checkActiveTrip after its await. The fetched list is
        applied as it is: nothing compares it with the session that asked. */
    method CompleteTripCheck(fetched: Remote<seq<Trip>>)
      modifies this`activeTrip
      ensures fetched.Done? ==> activeTrip == OngoingTrip(fetched.value)
      ensures fetched.Failed? ==> activeTrip == old(activeTrip)
    {
      if fetched.Done? {
        var ongoing := FirstWhere(fetched.value, IsOngoing);
        if ongoing.Some? {
          activeTrip := ongoing;
        } else {
          activeTrip := None;
        }
      }
    }

    /** checkActiveTrip run without anything interleaved at its await. */
    method CheckActiveTrip(fetched: Remote<seq<Trip>>) returns (request: Option<int>)
      modifies this`activeTrip
      ensures request == (if old(user).Some? then Some(old(user).value.userId) else None)
      ensures request.Some? && fetched.Done? ==> activeTrip == OngoingTrip(fetched.value)
      ensures request.None? || fetched.Failed? ==> activeTrip == old(activeTrip)
    {
      request := RequestedId();
      if request.Some? {
        CompleteTripCheck(fetched);
      }
    }

    /** The part of refreshUserData after its await: a fetched profile goes
        through handleUserUpdate; a failure changes nothing. */
    method CompleteRefresh(fetched: Remote<User>)
      modifies this
      ensures fetched.Done? ==> user == Some(fetched.value) && snapshot == Some(fetched.value)
      ensures fetched.Failed? ==> user == old(user) && snapshot == old(snapshot)
      ensures activeTrip == old(activeTrip)
    {
      if fetched.Done? {
        HandleUserUpdate(fetched.value);
      }
    }

    /** refreshUserData run without anything interleaved at its await. */
    method RefreshUserData(fetched: Remote<User>) returns (request: Option<int>)
      modifies this
      ensures request == (if old(user).Some? then Some(old(user).value.userId) else None)
      ensures request.Some? && fetched.Done? ==> user == Some(fetched.value) && snapshot == Some(fetched.value)
      ensures request.None? || fetched.Failed? ==> user == old(user) && snapshot == old(snapshot)
      ensures activeTrip == old(activeTrip)
    {
      request := RequestedId();
      if request.Some? {
        CompleteRefresh(fetched);
      }
    }

    /** handleRideEnded: the trip is cleared first, then the user refreshed. */
    method HandleRideEnded(fetched: Remote<User>) returns (request: Option<int>)
      modifies this
      ensures activeTrip == None
      ensures request == (if old(user).Some? then Some(old(user).value.userId) else None)
      ensures request.Some? && fetched.Done? ==> user == Some(fetched.value) && snapshot == Some(fetched.value)
      ensures request.None? || fetched.Failed? ==> user == old(user) && snapshot == old(snapshot)
    {
      activeTrip := None;
      request := RefreshUserData(fetched);
    }

    /** handleBookingComplete: awaits checkActiveTrip. */
    method HandleBookingComplete(fetched: Remote<seq<Trip>>) returns (request: Option<int>)
      modifies this`activeTrip
      ensures request == (if old(user).Some? then Some(old(user).value.userId) else None)
      ensures request.Some? && fetched.Done? ==> activeTrip == OngoingTrip(fetched.value)
      ensures request.None? || fetched.Failed? ==> activeTrip == old(activeTrip)
    {
      request := CheckActiveTrip(fetched);
    }
  }
}
