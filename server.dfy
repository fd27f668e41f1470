/** The Flask back end (app.py): the business rules of the routes the
    client relies on, over an in-memory store with one map per table. The
    SQL is replaced by map lookups and updates; the rows keep only the
    columns the rules read or write. */
module Server {
  import opened Common

  /** A route's reply: a success status with its body, or an error status
      with the `error` text of its JSON body. */
  datatype Response<+T> = Ok(status: int, body: T) | Err(status: int, error: string)

  const USER_NOT_FOUND := "User not found"
  const INVALID_PASSWORD := "Invalid password"
  const MISSING_AMOUNT := "Missing 'amount' field"
  const INVALID_AMOUNT := "Invalid amount"
  const AMOUNT_NOT_POSITIVE := "Amount must be positive"
  const BAD_RATING := "Invalid or missing 'rating'"
  const RATING_RANGE := "Rating must be between 1 and 5"
  const TRIP_NOT_FOUND := "Trip not found"
  const TRIP_NOT_COMPLETED := "Can only review completed trips"
  const REVIEW_EXISTS := "A review for this trip already exists"
  const IDS_REQUIRED := "user_id and plan_id are required"
  const PLAN_NOT_FOUND := "Plan not found"
  const INSUFFICIENT := "Insufficient wallet balance"
  const PURCHASED := "Membership purchased successfully"
  const ADMIN_REQUIRED := "Admin access required"
  const NO_FIELDS := "No fields to update"
  const TECH_NOT_FOUND := "Technician not found"
  const TECH_BUSY := "Cannot delete technician with active assignments"
  const ASSIGNMENT_NOT_FOUND := "Assignment not found"
  const LOG_DONE := "Maintenance log already completed"

  /** The CASE expression of the login and profile queries, over the plan
      name the LEFT JOIN found (None when the user has no plan). */
  function PlanDiscount(planName: Option<string>): (d: real)
    ensures 0.0 <= d <= 0.15
    ensures d == 0.05 <==> planName == Some("Basic Plan")
    ensures d == 0.10 <==> planName == Some("Premium Plan")
    ensures d == 0.15 <==> planName == Some("Annual Plan")
    ensures d == 0.0 <==> planName !in {Some("Basic Plan"), Some("Premium Plan"), Some("Annual Plan")}
  {
    match planName
    case Some("Basic Plan") => 0.05
    case Some("Premium Plan") => 0.10
    case Some("Annual Plan") => 0.15
    case _ => 0.00
  }

  /** `hash_password`. SHA-256 is not modelled: the digest is a tagged copy
      of the password, which keeps the one property the rules use. */
  function Hash(password: string): (digest: string)
  {
    "sha256:" + password
  }

  /** Equal digests come only from equal passwords, so a stored digest
      accepts exactly the password it was made from. */
  lemma HashInjective(a: string, b: string)
    ensures Hash(a) == Hash(b) <==> a == b
  {
    if Hash(a) == Hash(b) {
      assert a == Hash(a)[7..];
    }
  }

  datatype UserRow = UserRow(name: string, email: string, passwordHash: string,
                             wallet: real, role: string, planId: Option<int>)
  datatype PlanRow = PlanRow(planName: string, cost: real)
  datatype TripRow = TripRow(userId: int, vehicleId: int, status: string)
  datatype ReviewRow = ReviewRow(userId: int, vehicleId: int, rating: int, comment: string)
  datatype TechRow = TechRow(name: string, specialization: string, isAvailable: bool, activeAssignments: int)
  datatype LogRow = LogRow(vehicleId: int, status: string)
  datatype VehicleRow = VehicleRow(status: string)

  /** The user object of the login and profile responses: the user's
      columns except the password, the joined plan name and its discount. */
  datatype UserView = UserView(userId: int, name: string, email: string, wallet: real, role: string,
                               planId: Option<int>, planName: Option<string>, planDiscount: real)

  /** Every table at once, to say which ones a route leaves alone. */
  datatype Tables = Tables(users: map<int, UserRow>, plans: map<int, PlanRow>, trips: map<int, TripRow>,
                           reviews: map<int, ReviewRow>, technicians: map<int, TechRow>,
                           logs: map<int, LogRow>, assignments: map<int, int>,
                           vehicles: map<int, VehicleRow>)

  /** The `amount` field of a top-up: absent (KeyError), not convertible
      by `float` (ValueError), or a number. */
  datatype AmountField = NoAmount | NotNumeric | Amount(value: real)

  /** The checks of add_to_wallet before the database is touched, in the
      order the code makes them. */
  function AmountProblem(field: AmountField): (e: Option<string>)
    ensures e.None? <==> field.Amount? && field.value > 0.0
    ensures field.NoAmount? ==> e == Some(MISSING_AMOUNT)
    ensures field.NotNumeric? ==> e == Some(INVALID_AMOUNT)
    ensures field.Amount? && field.value <= 0.0 ==> e == Some(AMOUNT_NOT_POSITIVE)
  {
    match field
    case NoAmount => Some(MISSING_AMOUNT)
    case NotNumeric => Some(INVALID_AMOUNT)
    case Amount(v) => if v <= 0.0 then Some(AMOUNT_NOT_POSITIVE) else None
  }

  /** The `rating` field of a review: absent, not convertible by `int`
      (null, a non-integer string, ...), an integer (or integer string), or
      a JSON number with a fraction, which `int` truncates toward zero. */
  datatype RatingField = NoRating | Unconvertible | Whole(n: int) | Fractional(x: real)

  /** Python's `int()` on a float: truncation toward zero. */
  function TruncateTowardZero(x: real): (n: int)
    ensures x >= 0.0 ==> n as real <= x < n as real + 1.0
    ensures x < 0.0 ==> n as real - 1.0 < x <= n as real
  {
    if x >= 0.0 then x.Floor else -((-x).Floor)
  }

  function RatingValue(field: RatingField): (r: Option<int>)
    ensures r.None? <==> field.NoRating? || field.Unconvertible?
    ensures field.Whole? ==> r == Some(field.n)
    ensures field.Fractional? ==> r == Some(TruncateTowardZero(field.x))
  {
    match field
    case Whole(n) => Some(n)
    case Fractional(x) => Some(TruncateTowardZero(x))
    case _ => None
  }

  /** The rating checks of add_review, before the trip is looked up. */
  function RatingProblem(field: RatingField): (e: Option<string>)
    ensures e.None? <==> RatingValue(field).Some? && 1 <= RatingValue(field).value <= 5
    ensures RatingValue(field).None? ==> e == Some(BAD_RATING)
    ensures RatingValue(field).Some? && !(1 <= RatingValue(field).value <= 5) ==> e == Some(RATING_RANGE)
  {
    var r := RatingValue(field);
    if r.None? then Some(BAD_RATING)
    else if !(1 <= r.value <= 5) then Some(RATING_RANGE)
    else None
  }

  /** A fractional rating is accepted exactly when it lies in [1, 6): 5.9
      is stored as 5, 0.9 is refused. */
  lemma FractionalRatings(x: real)
    ensures RatingProblem(Fractional(x)).None? <==> 1.0 <= x < 6.0
  {
    var n := TruncateTowardZero(x);
    if 1.0 <= x < 6.0 {
      assert 1 <= n <= 5;
    }
  }

  /** `not user_id`: absent, or the falsy id 0. */
  predicate Falsy(id: Option<int>)
  {
    id.None? || id.value == 0
  }

  /** A text field that Python treats as true: present and non-empty. */
  predicate Truthy(s: Option<string>)
  {
    s.Some? && s.value != ""
  }

  /** `data.get('user_role', 'user') != 'admin'`. */
  predicate IsAdmin(role: Option<string>)
  {
    role == Some("admin")
  }

  /** One `SET` item of update_technician. */
  datatype TechUpdate = SetName(name: string) | SetSpecialization(specialization: string)
                      | SetAvailable(available: bool)

  function Apply(row: TechRow, u: TechUpdate): (patched: TechRow)
  {
    match u
    case SetName(n) => row.(name := n)
    case SetSpecialization(s) => row.(specialization := s)
    case SetAvailable(b) => row.(isAvailable := b)
  }

  /** The UPDATE statement built from `updates`: its items applied left
      to right. */
  function ApplyAll(row: TechRow, updates: seq<TechUpdate>): (patched: TechRow)
    decreases |updates|
  {
    if updates == [] then row else ApplyAll(Apply(row, updates[0]), updates[1..])
  }

  lemma {:induction false} ApplyAllSnoc(row: TechRow, updates: seq<TechUpdate>, u: TechUpdate)
    ensures ApplyAll(row, updates + [u]) == Apply(ApplyAll(row, updates), u)
    decreases |updates|
  {
    if updates == [] {
      assert [u][1..] == [];
    } else {
      assert (updates + [u])[1..] == updates[1..] + [u];
      ApplyAllSnoc(Apply(row, updates[0]), updates[1..], u);
    }
  }

  /** The technician update as the route intends it: a truthy name or
      specialization and a present availability replace their columns;
      nothing else changes. */
  function Patched(row: TechRow, name: Option<string>, specialization: Option<string>,
                   available: Option<bool>): (patched: TechRow)
  {
    TechRow(if Truthy(name) then name.value else row.name,
            if Truthy(specialization) then specialization.value else row.specialization,
            if available.Some? then available.value else row.isAvailable,
            row.activeAssignments)
  }

  /** The `updates`/`params` lists of update_technician, built by
      appending. The list is empty exactly when no field was given, holds
      at most one item per column, and applying it yields `Patched`. */
  method CollectUpdates(name: Option<string>, specialization: Option<string>, available: Option<bool>)
    returns (updates: seq<TechUpdate>)
    ensures updates == [] <==> !Truthy(name) && !Truthy(specialization) && available.None?
    ensures |updates| <= 3
    ensures forall row :: ApplyAll(row, updates) == Patched(row, name, specialization, available)
  {
    updates := [];
    if Truthy(name) {
      updates := updates + [SetName(name.value)];
    }
    assert forall row :: ApplyAll(row, updates) == Patched(row, name, None, None);
    if Truthy(specialization) {
      forall row ensures ApplyAll(row, updates + [SetSpecialization(specialization.value)]) ==
                         Patched(row, name, specialization, None) {
        ApplyAllSnoc(row, updates, SetSpecialization(specialization.value));
      }
      updates := updates + [SetSpecialization(specialization.value)];
    }
    assert forall row :: ApplyAll(row, updates) == Patched(row, name, specialization, None);
    if available.Some? {
      forall row ensures ApplyAll(row, updates + [SetAvailable(available.value)]) ==
                         Patched(row, name, specialization, available) {
        ApplyAllSnoc(row, updates, SetAvailable(available.value));
      }
      updates := updates + [SetAvailable(available.value)];
    }
  }

  /** The guarded decrement of complete_maintenance_log: one less
      assignment for the technician, only while it has one. Workloads
      never go negative and nobody else's changes. */
  function Relieved(technicians: map<int, TechRow>, tech: int): (t: map<int, TechRow>)
    ensures t.Keys == technicians.Keys
    ensures forall id :: id in technicians && technicians[id].activeAssignments >= 0 ==> t[id].activeAssignments >= 0
    ensures forall id :: id in technicians && id != tech ==> t[id] == technicians[id]
    ensures tech in technicians ==>
              t[tech].activeAssignments == if technicians[tech].activeAssignments > 0
                                           then technicians[tech].activeAssignments - 1
                                           else technicians[tech].activeAssignments
  {
    if tech in technicians && technicians[tech].activeAssignments > 0
    then technicians[tech := technicians[tech].(activeAssignments := technicians[tech].activeAssignments - 1)]
    else technicians
  }

  /** The database. `reviews` is keyed by trip (the duplicate-review
      IntegrityError is read as a unique key on the trip), `assignments`
      maps a maintenance log to its technician. */
  class Store {
    var users: map<int, UserRow>
    var plans: map<int, PlanRow>
    var trips: map<int, TripRow>
    var reviews: map<int, ReviewRow>
    var technicians: map<int, TechRow>
    var logs: map<int, LogRow>
    var assignments: map<int, int>
    var vehicles: map<int, VehicleRow>

    /** E-mails are unique (registration relies on the key), balances and
        workloads are never negative. */
    ghost predicate Valid()
      reads this
    {
      && (forall a, b :: a in users && b in users && users[a].email == users[b].email ==> a == b)
      && (forall id :: id in users ==> users[id].wallet >= 0.0)
      && (forall id :: id in technicians ==> technicians[id].activeAssignments >= 0)
    }

    function Snapshot(): (t: Tables)
      reads this
    {
      Tables(users, plans, trips, reviews, technicians, logs, assignments, vehicles)
    }

    constructor (t: Tables)
      requires forall a, b :: a in t.users && b in t.users && t.users[a].email == t.users[b].email ==> a == b
      requires forall id :: id in t.users ==> t.users[id].wallet >= 0.0
      requires forall id :: id in t.technicians ==> t.technicians[id].activeAssignments >= 0
      ensures Valid() && Snapshot() == t
    {
      users, plans, trips, reviews := t.users, t.plans, t.trips, t.reviews;
      technicians, logs, assignments, vehicles := t.technicians, t.logs, t.assignments, t.vehicles;
    }

    /** The plan name the LEFT JOIN finds for a user row. */
    function PlanNameOf(u: UserRow): (planName: Option<string>)
      reads this
    {
      if u.planId.Some? && u.planId.value in plans then Some(plans[u.planId.value].planName) else None
    }

    function ViewOf(id: int): (v: UserView)
      reads this
      requires id in users
      ensures v.userId == id && v.name == users[id].name && v.email == users[id].email
      ensures v.wallet == users[id].wallet && v.role == users[id].role && v.planId == users[id].planId
      ensures v.planDiscount == PlanDiscount(v.planName) && 0.0 <= v.planDiscount <= 0.15
    {
      var u := users[id];
      var planName := PlanNameOf(u);
      UserView(id, u.name, u.email, u.wallet, u.role, u.planId, planName, PlanDiscount(planName))
    }

    /** get_user_profile. */
    function GetUserProfile(userId: int): (r: Response<UserView>)
      reads this
      ensures r.Err? <==> userId !in users
      ensures r.Err? ==> r == Err(404, USER_NOT_FOUND)
      ensures r.Ok? ==> r.status == 200 && r.body.userId == userId && r.body.email == users[userId].email &&
                        r.body.wallet == users[userId].wallet && 0.0 <= r.body.planDiscount <= 0.15
    {
      if userId in users then Ok(200, ViewOf(userId)) else Err(404, USER_NOT_FOUND)
    }

    /** login_user: the row with that e-mail, then the digest comparison.
        A successful reply carries the same user object the profile route
        returns for that id. */
    method Login(email: string, password: string) returns (r: Response<UserView>)
      requires Valid()
      ensures r == Err(404, USER_NOT_FOUND) <==> forall id :: id in users ==> users[id].email != email
      ensures r == Err(401, INVALID_PASSWORD) <==>
                exists id :: id in users && users[id].email == email && users[id].passwordHash != Hash(password)
      ensures r.Ok? <==>
                exists id :: id in users && users[id].email == email && users[id].passwordHash == Hash(password)
      ensures r.Err? ==> r == Err(404, USER_NOT_FOUND) || r == Err(401, INVALID_PASSWORD)
      ensures r.Ok? ==> r.body.userId in users && users[r.body.userId].email == email &&
                        GetUserProfile(r.body.userId) == r
    {
      if forall id :: id in users ==> users[id].email != email {
        return Err(404, USER_NOT_FOUND);
      }
      var id :| id in users && users[id].email == email;
      if Hash(password) != users[id].passwordHash {
        return Err(401, INVALID_PASSWORD);
      }
      r := Ok(200, ViewOf(id));
    }

    /** add_to_wallet: the amount checks, then the user; the balance grows
        by exactly the amount and nothing else changes. */
    method AddToWallet(userId: int, field: AmountField) returns (r: Response<real>)
      requires Valid()
      modifies this
      ensures Valid()
      ensures Snapshot() == old(Snapshot()).(users := users)
      ensures AmountProblem(field).Some? ==>
                r == Err(400, AmountProblem(field).value) && users == old(users)
      ensures AmountProblem(field).None? && userId !in old(users) ==>
                r == Err(404, USER_NOT_FOUND) && users == old(users)
      ensures AmountProblem(field).None? && userId in old(users) ==>
                && r == Ok(200, field.value)
                && users == old(users)[userId := old(users)[userId].(wallet := old(users)[userId].wallet + field.value)]
    {
      var problem := AmountProblem(field);
      if problem.Some? {
        return Err(400, problem.value);
      }
      if userId !in users {
        return Err(404, USER_NOT_FOUND);
      }
      var u := users[userId];
      users := users[userId := u.(wallet := u.wallet + field.value)];
      r := Ok(200, field.value);
    }

    /** add_review: rating checks, then the trip, its status and an
        existing review, in that order; a new review copies the trip's
        user and vehicle and defaults the comment to ''. */
    method AddReview(tripId: int, rating: RatingField, comment: Option<string>) returns (r: Response<()>)
      requires Valid()
      modifies this
      ensures Valid()
      ensures Snapshot() == old(Snapshot()).(reviews := reviews)
      ensures r.Ok? <==>
                && RatingProblem(rating).None? && tripId in trips
                && trips[tripId].status == "Completed" && tripId !in old(reviews)
      ensures r.Err? ==> reviews == old(reviews) && r.status == (if tripId !in trips && RatingProblem(rating).None? then 404 else 400)
      ensures RatingProblem(rating).Some? ==> r == Err(400, RatingProblem(rating).value)
      ensures RatingProblem(rating).None? && tripId !in trips ==> r == Err(404, TRIP_NOT_FOUND)
      ensures RatingProblem(rating).None? && tripId in trips && trips[tripId].status != "Completed" ==>
                r == Err(400, TRIP_NOT_COMPLETED)
      ensures RatingProblem(rating).None? && tripId in trips && trips[tripId].status == "Completed" && tripId in old(reviews) ==>
                r == Err(400, REVIEW_EXISTS)
      ensures r.Ok? ==>
                && r == Ok(201, ())
                && reviews == old(reviews)[tripId := ReviewRow(trips[tripId].userId, trips[tripId].vehicleId,
                                                               RatingValue(rating).value,
                                                               if comment.Some? then comment.value else "")]
    {
      var problem := RatingProblem(rating);
      if problem.Some? {
        return Err(400, problem.value);
      }
      if tripId !in trips {
        return Err(404, TRIP_NOT_FOUND);
      }
      var trip := trips[tripId];
      if trip.status != "Completed" {
        return Err(400, TRIP_NOT_COMPLETED);
      }
      if tripId in reviews {
        return Err(400, REVIEW_EXISTS);
      }
      reviews := reviews[tripId := ReviewRow(trip.userId, trip.vehicleId, RatingValue(rating).value,
                                             if comment.Some? then comment.value else "")];
      r := Ok(201, ());
    }

    /** purchase_membership: both ids, the plan, the user, then the
        balance; a purchase takes exactly the plan's cost and records the
        plan, so a non-negative balance stays non-negative. */
    method PurchaseMembership(userId: Option<int>, planId: Option<int>) returns (r: Response<string>)
      requires Valid()
      modifies this
      ensures Valid()
      ensures Snapshot() == old(Snapshot()).(users := users)
      ensures r.Err? ==> users == old(users)
      ensures Falsy(userId) || Falsy(planId) ==> r == Err(400, IDS_REQUIRED)
      ensures !Falsy(userId) && !Falsy(planId) && planId.value !in plans ==> r == Err(404, PLAN_NOT_FOUND)
      ensures !Falsy(userId) && !Falsy(planId) && planId.value in plans && userId.value !in old(users) ==>
                r == Err(404, USER_NOT_FOUND)
      ensures !Falsy(userId) && !Falsy(planId) && planId.value in plans && userId.value in old(users) ==>
                if old(users)[userId.value].wallet < plans[planId.value].cost
                then r == Err(400, INSUFFICIENT)
                else
                  && r == Ok(200, PURCHASED)
                  && users == old(users)[userId.value := old(users)[userId.value].(
                                wallet := old(users)[userId.value].wallet - plans[planId.value].cost,
                                planId := planId)]
    {
      if Falsy(userId) || Falsy(planId) {
        return Err(400, IDS_REQUIRED);
      }
      if planId.value !in plans {
        return Err(404, PLAN_NOT_FOUND);
      }
      var cost := plans[planId.value].cost;
      if userId.value !in users {
        return Err(404, USER_NOT_FOUND);
      }
      var u := users[userId.value];
      if u.wallet < cost {
        return Err(400, INSUFFICIENT);
      }
      users := users[userId.value := u.(wallet := u.wallet - cost, planId := planId)];
      r := Ok(200, PURCHASED);
    }

    /** update_technician: the role, then the collected fields, then the
        technician; the row changes as `Patched` says and its workload is
        untouched. */
    method UpdateTechnician(role: Option<string>, techId: int, name: Option<string>,
                            specialization: Option<string>, available: Option<bool>)
      returns (r: Response<()>)
      requires Valid()
      modifies this
      ensures Valid()
      ensures Snapshot() == old(Snapshot()).(technicians := technicians)
      ensures r.Err? ==> technicians == old(technicians)
      ensures !IsAdmin(role) ==> r == Err(403, ADMIN_REQUIRED)
      ensures IsAdmin(role) && !Truthy(name) && !Truthy(specialization) && available.None? ==>
                r == Err(400, NO_FIELDS)
      ensures IsAdmin(role) && (Truthy(name) || Truthy(specialization) || available.Some?) ==>
                if techId !in old(technicians) then r == Err(404, TECH_NOT_FOUND)
                else r == Ok(200, ()) &&
                     technicians == old(technicians)[techId := Patched(old(technicians)[techId], name, specialization, available)]
    {
      if !IsAdmin(role) {
        return Err(403, ADMIN_REQUIRED);
      }
      var updates := CollectUpdates(name, specialization, available);
      if updates == [] {
        return Err(400, NO_FIELDS);
      }
      if techId !in technicians {
        return Err(404, TECH_NOT_FOUND);
      }
      technicians := technicians[techId := ApplyAll(technicians[techId], updates)];
      r := Ok(200, ());
    }

    /** delete_technician: the role, the technician, then its workload; a
        busy technician is never deleted. */
    method DeleteTechnician(role: Option<string>, techId: int) returns (r: Response<()>)
      requires Valid()
      modifies this
      ensures Valid()
      ensures Snapshot() == old(Snapshot()).(technicians := technicians)
      ensures r.Err? ==> technicians == old(technicians)
      ensures !IsAdmin(role) ==> r == Err(403, ADMIN_REQUIRED)
      ensures IsAdmin(role) && techId !in old(technicians) ==> r == Err(404, TECH_NOT_FOUND)
      ensures IsAdmin(role) && techId in old(technicians) && old(technicians)[techId].activeAssignments > 0 ==>
                r == Err(400, TECH_BUSY)
      ensures r.Ok? <==>
                IsAdmin(role) && techId in old(technicians) && old(technicians)[techId].activeAssignments == 0
      ensures r.Ok? ==> r == Ok(200, ()) && technicians == old(technicians) - {techId}
    {
      if !IsAdmin(role) {
        return Err(403, ADMIN_REQUIRED);
      }
      if techId !in technicians {
        return Err(404, TECH_NOT_FOUND);
      }
      if technicians[techId].activeAssignments > 0 {
        return Err(400, TECH_BUSY);
      }
      technicians := technicians - {techId};
      r := Ok(200, ());
    }

    /** complete_maintenance_log: the role, the assignment joined with its
        log, then the log's status; completion marks the log, takes one off
        the technician's workload only while it is positive, and makes the
        log's vehicle available. */
    method CompleteMaintenanceLog(role: Option<string>, logId: int) returns (r: Response<()>)
      requires Valid()
      modifies this
      ensures Valid()
      ensures Snapshot() == old(Snapshot()).(logs := logs, technicians := technicians, vehicles := vehicles)
      ensures r.Err? ==> logs == old(logs) && technicians == old(technicians) && vehicles == old(vehicles)
      ensures !IsAdmin(role) ==> r == Err(403, ADMIN_REQUIRED)
      ensures IsAdmin(role) && !(logId in assignments && logId in old(logs)) ==> r == Err(404, ASSIGNMENT_NOT_FOUND)
      ensures IsAdmin(role) && logId in assignments && logId in old(logs) && old(logs)[logId].status == "Completed" ==>
                r == Err(400, LOG_DONE)
      ensures r.Ok? <==>
                IsAdmin(role) && logId in assignments && logId in old(logs) && old(logs)[logId].status != "Completed"
      ensures r.Ok? ==>
                && r == Ok(200, ())
                && logs == old(logs)[logId := old(logs)[logId].(status := "Completed")]
                && technicians == Relieved(old(technicians), assignments[logId])
                && vehicles == (if old(logs)[logId].vehicleId in old(vehicles)
                                then old(vehicles)[old(logs)[logId].vehicleId := VehicleRow("available")]
                                else old(vehicles))
    {
      if !IsAdmin(role) {
        return Err(403, ADMIN_REQUIRED);
      }
      if !(logId in assignments && logId in logs) {
        return Err(404, ASSIGNMENT_NOT_FOUND);
      }
      var log := logs[logId];
      if log.status == "Completed" {
        return Err(400, LOG_DONE);
      }
      logs := logs[logId := log.(status := "Completed")];
      var tech := assignments[logId];
      if tech in technicians && technicians[tech].activeAssignments > 0 {
        technicians := technicians[tech := technicians[tech].(activeAssignments := technicians[tech].activeAssignments - 1)];
      }
      assert technicians == Relieved(old(technicians), tech);
      if log.vehicleId in vehicles {
        vehicles := vehicles[log.vehicleId := VehicleRow("available")];
      }
      r := Ok(200, ());
    }
  }
}
