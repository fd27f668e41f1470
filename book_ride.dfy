/** The booking page (frontend/src/pages/BookRide.js): trip cost, the
    duration field, station and vehicle selection, and the booking handler. */
module BookRide {
  import opened Common
  import Session

  const SELECT_BOTH := "Please select a station and vehicle"
  const INSUFFICIENT := "Insufficient wallet balance"
  const BOOK_FAILED := "Failed to book ride"
  const VEHICLES_FAILED := "Failed to load vehicles for this station"

  /** The price formula: hourly rate times hours, less the discount. */
  function Cost(rate: real, hours: real, discount: real): (c: real)
  {
    rate * hours * (1.0 - discount)
  }

  /** calculateCostNumber: 0 with no vehicle selected; hours that do not
      parse count as 0 and a discount that is not finite counts as 0. */
  function CostNumber(vehicle: Option<Vehicle>, hours: Option<real>, discount: Option<real>): (c: real)
    ensures vehicle.None? ==> c == 0.0
    ensures vehicle.Some? && hours.Some? && discount.Some? ==>
              c == Cost(vehicle.value.ratePerHour, hours.value, discount.value)
    ensures hours.None? ==> c == 0.0
    ensures vehicle.Some? && hours.Some? && discount.None? ==>
              c == Cost(vehicle.value.ratePerHour, hours.value, 0.0)
  {
    if vehicle.None? then 0.0
    else
      var h := if hours.Some? then hours.value else 0.0;
      var d := if discount.Some? then discount.value else 0.0;
      Cost(vehicle.value.ratePerHour, h, d)
  }

  /** The two worked examples of the cost formula. */
  lemma CostExamples()
    ensures CostNumber(Some(Vehicle(1, 10.0)), Some(2.0), Some(0.1)) == 18.0
    ensures CostNumber(Some(Vehicle(1, 10.0)), Some(1.0), None) == 10.0
  {
  }

  /** A discount in [0, 1] never makes a trip cost more than the full
      price nor less than nothing, and a larger discount never costs more. */
  lemma {:induction false} CostWithinFullPrice(rate: real, hours: real, d: real, d': real)
    requires 0.0 <= rate && 0.0 <= hours && 0.0 <= d <= d' <= 1.0
    ensures 0.0 <= Cost(rate, hours, d') <= Cost(rate, hours, d) <= rate * hours
  {
    var full := rate * hours;
    assert 0.0 <= full;
    assert Cost(rate, hours, d) == full * (1.0 - d);
    assert Cost(rate, hours, d') == full * (1.0 - d');
    assert full * (1.0 - d) - full * (1.0 - d') == full * (d' - d);
    assert 0.0 <= full * (d' - d);
    assert 0.0 <= full * (1.0 - d');
    assert full - full * (1.0 - d) == full * d;
    assert 0.0 <= full * d;
  }

  /** The duration field's onChange: `Math.max(1, parseInt(v) || 1)`.
      Input that does not parse, 0 and negatives give 1; every other value
      passes through unchanged, with no upper bound. */
  function ClampDuration(input: Option<int>): (h: int)
    ensures h >= 1
    ensures input.Some? && input.value >= 1 ==> h == input.value
    ensures input.None? || input.value < 1 ==> h == 1
  {
    var parsed := if input.Some? && input.value != 0 then input.value else 1;
    if parsed < 1 then 1 else parsed
  }

  lemma DurationExamples()
    ensures ClampDuration(None) == 1 && ClampDuration(Some(0)) == 1
    ensures ClampDuration(Some(-5)) == 1 && ClampDuration(Some(3)) == 3
    ensures ClampDuration(Some(25)) == 25
  {
  }

  /** The two checks of handleBook, in order: selection, then affordability
      against the unrounded cost. None when both pass. */
  function BookBlocker(station: Option<Station>, vehicle: Option<Vehicle>, wallet: Option<real>, cost: real): (e: Option<string>)
    ensures e == Some(SELECT_BOTH) <==> station.None? || vehicle.None?
    ensures e == Some(INSUFFICIENT) <==> station.Some? && vehicle.Some? && Short(wallet, cost)
    ensures e.None? <==> station.Some? && vehicle.Some? && !Short(wallet, cost)
  {
    if station.None? || vehicle.None? then Some(SELECT_BOTH)
    else if Short(wallet, cost) then Some(INSUFFICIENT)
    else None
  }

  /** What handleBook does, in order: the remote booking call, the two
      callbacks (user refresh, then booking complete), the navigation. */
  datatype Step = BookCall(userId: int, vehicleId: int, stationId: int, hours: int)
                | RefreshUser | BookingComplete | NavigateTo(path: Session.Path)

  function StationIs(id: int): (matches: Station -> bool)
  {
    (s: Station) => s.stationId == id
  }

  class BookRidePage {
    var stations: seq<Station>
    var vehicles: seq<Vehicle>
    var selectedStation: Option<Station>
    var selectedVehicle: Option<Vehicle>
    var durationHours: int
    var loadingVehicles: bool
    var booking: bool
    var error: string

    /** Every edit of the duration field keeps it at 1 or more. */
    ghost predicate Valid()
      reads this
    {
      durationHours >= 1
    }

    /** The page once its station list has loaded. */
    constructor (loaded: seq<Station>)
      ensures Valid()
      ensures stations == loaded && vehicles == [] && selectedStation == None
      ensures selectedVehicle == None && durationHours == 1
      ensures !loadingVehicles && !booking && error == ""
    {
      stations := loaded;
      vehicles := [];
      selectedStation := None;
      selectedVehicle := None;
      durationHours := 1;
      loadingVehicles := false;
      booking := false;
      error := "";
    }

    /** The cost shown and checked for `user`. */
    function CostFor(user: User): (cost: real)
      reads this
      ensures selectedVehicle.None? ==> cost == 0.0
      ensures selectedVehicle.Some? ==>
                cost == Cost(selectedVehicle.value.ratePerHour, durationHours as real,
                             if user.planDiscount.Some? then user.planDiscount.value else 0.0)
    {
      CostNumber(selectedVehicle, Some(durationHours as real), user.planDiscount)
    }

    /** The confirm button is disabled while booking or when the wallet is
        short of the unrounded cost. */
    function ConfirmDisabled(user: User): (disabled: bool)
      reads this
      ensures booking ==> disabled
      ensures !booking ==> (disabled <==> user.walletBalance.Some? && user.walletBalance.value < CostFor(user))
      ensures user.walletBalance.None? ==> disabled == booking
    {
      booking || Short(user.walletBalance, CostFor(user))
    }

    /** handleStationSelect: the station is looked up in the loaded list,
        any selected vehicle is cleared, then the station's vehicles are
        fetched; a failed fetch leaves the old list and sets an error. */
    method SelectStation(stationId: int, fetched: Remote<seq<Vehicle>>)
      modifies this
      ensures selectedStation == FirstWhere(stations, StationIs(stationId))
      ensures selectedVehicle == None && !loadingVehicles
      ensures fetched.Done? ==> vehicles == fetched.value && error == old(error)
      ensures fetched.Failed? ==> vehicles == old(vehicles) && error == VEHICLES_FAILED
      ensures stations == old(stations) && durationHours == old(durationHours) && booking == old(booking)
    {
      selectedStation := FirstWhere(stations, StationIs(stationId));
      selectedVehicle := None;
      loadingVehicles := true;
      if fetched.Done? {
        vehicles := fetched.value;
      } else {
        error := VEHICLES_FAILED;
      }
      loadingVehicles := false;
    }

    /** Clicking a vehicle card selects it. */
    method SelectVehicle(v: Vehicle)
      modifies this`selectedVehicle
      ensures selectedVehicle == Some(v)
    {
      selectedVehicle := Some(v);
    }

    /** The duration field's onChange. */
    method EditDuration(input: Option<int>)
      requires Valid()
      modifies this`durationHours
      ensures Valid() && durationHours == ClampDuration(input)
    {
      durationHours := ClampDuration(input);
    }

    /** handleBook. A failed check sets its message and issues no call;
        otherwise the booking call is made and, on success, the user
        refresh completes before the booking-complete callback, then the
        page navigates to /active-ride. `booking` is reset either way. */
    method Book(user: User, booked: Remote<()>) returns (steps: seq<Step>)
      modifies this`booking, this`error
      ensures var blocker := BookBlocker(selectedStation, selectedVehicle, user.walletBalance, old(CostFor(user)));
        && (blocker.Some? ==> steps == [] && error == blocker.value && booking == old(booking))
        && (blocker.None? ==>
              && !booking && |steps| >= 1
              && steps[0] == BookCall(user.userId, selectedVehicle.value.vehicleId,
                                      selectedStation.value.stationId, durationHours))
        && (blocker.None? && booked.Done? ==>
              steps[1..] == [RefreshUser, BookingComplete, NavigateTo(Session.ActiveRidePath)] && error == "")
        && (blocker.None? && booked.Failed? ==>
              |steps| == 1 && error == ErrorText(booked.message, BOOK_FAILED))
    {
      var blocker := BookBlocker(selectedStation, selectedVehicle, user.walletBalance, CostFor(user));
      if blocker.Some? {
        error := blocker.value;
        return [];
      }
      booking := true;
      error := "";
      steps := [BookCall(user.userId, selectedVehicle.value.vehicleId,
                         selectedStation.value.stationId, durationHours)];
      if booked.Done? {
        steps := steps + [RefreshUser, BookingComplete, NavigateTo(Session.ActiveRidePath)];
      } else {
        error := ErrorText(booked.message, BOOK_FAILED);
      }
      booking := false;
    }
  }

  /** With a station and vehicle selected and no booking in flight, the
      confirm button is disabled exactly when handleBook would refuse for
      an insufficient balance. */
  lemma ConfirmDisabledMatchesBook(page: BookRidePage, user: User)
    requires page.selectedStation.Some? && page.selectedVehicle.Some? && !page.booking
    ensures page.ConfirmDisabled(user) <==>
              BookBlocker(page.selectedStation, page.selectedVehicle, user.walletBalance, page.CostFor(user)) == Some(INSUFFICIENT)
  {
  }

  /** Wallet 5 against a one-hour ride at rate 10 with no discount is
      refused before any call. */
  lemma ShortWalletIsRefused()
    ensures BookBlocker(Some(Station(1, "S")), Some(Vehicle(1, 10.0)), Some(5.0),
                        CostNumber(Some(Vehicle(1, 10.0)), Some(1.0), Some(0.0))) == Some(INSUFFICIENT)
  {
  }
}
