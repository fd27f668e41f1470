/** The active-ride page (frontend/src/pages/ActiveRide.js): ending and
    cancelling the trip in progress. Each handler is split at its await:
    Begin* is the synchronous part up to the remote call, Finish* what runs
    once the call settles. */
module ActiveRide {
  import opened Common
  import Session

  const NO_END_STATION := "Please select an end station"
  const END_FAILED := "Failed to end ride"
  const CANCEL_FAILED := "Failed to cancel trip"

  /** What a handler does, in order: the remote call, the user refresh
      (awaited), the ride-ended callback, the navigation. */
  datatype Step = EndRideCall(tripId: int, stationId: int) | CancelTripCall(tripId: int)
                | RefreshUser | RideEnded | NavigateTo(path: Session.Path)

  /** The steps after a successful end or cancel call. */
  const AFTER_SUCCESS: seq<Step> := [RefreshUser, RideEnded, NavigateTo(Session.MyRidesPath)]

  class ActiveRidePage {
    const trip: Trip
    var selectedEndStation: Option<Station>
    var ending: bool
    var cancelling: bool
    var error: string

    constructor (t: Trip)
      ensures trip == t && selectedEndStation == None && !ending && !cancelling && error == ""
    {
      trip := t;
      selectedEndStation := None;
      ending := false;
      cancelling := false;
      error := "";
    }

    method SelectEndStation(s: Station)
      modifies this`selectedEndStation
      ensures selectedEndStation == Some(s)
    {
      selectedEndStation := Some(s);
    }

    /** handleEndRide up to its await. No end station: an error and no
        call. A declined confirmation: nothing at all. Otherwise `ending`
        is raised, the error cleared, and the endRide call issued. */
    method BeginEndRide(confirmed: bool) returns (call: Option<Step>)
      modifies this`ending, this`error
      ensures selectedEndStation.None? ==>
                call.None? && error == NO_END_STATION && ending == old(ending)
      ensures selectedEndStation.Some? && !confirmed ==>
                call.None? && error == old(error) && ending == old(ending)
      ensures selectedEndStation.Some? && confirmed ==>
                call == Some(EndRideCall(trip.tripId, selectedEndStation.value.stationId)) &&
                ending && error == ""
    {
      if selectedEndStation.None? {
        error := NO_END_STATION;
        return None;
      }
      if !confirmed {
        return None;
      }
      ending := true;
      error := "";
      call := Some(EndRideCall(trip.tripId, selectedEndStation.value.stationId));
    }

    /** handleEndRide after its await: on success the callbacks run in
        order and no error is set; on failure the server's message (or the
        default) is shown and no callback runs. `ending` drops either way. */
    method FinishEndRide(outcome: Remote<()>) returns (steps: seq<Step>)
      modifies this`ending, this`error
      ensures !ending
      ensures outcome.Done? ==> steps == AFTER_SUCCESS && error == old(error)
      ensures outcome.Failed? ==> steps == [] && error == ErrorText(outcome.message, END_FAILED)
    {
      if outcome.Done? {
        steps := AFTER_SUCCESS;
      } else {
        error := ErrorText(outcome.message, END_FAILED);
        steps := [];
      }
      ending := false;
    }

    /** handleCancelTrip up to its await: no station is needed; a declined
        confirmation does nothing. */
    method BeginCancelTrip(confirmed: bool) returns (call: Option<Step>)
      modifies this`cancelling, this`error
      ensures !confirmed ==> call.None? && error == old(error) && cancelling == old(cancelling)
      ensures confirmed ==> call == Some(CancelTripCall(trip.tripId)) && cancelling && error == ""
    {
      if !confirmed {
        return None;
      }
      cancelling := true;
      error := "";
      call := Some(CancelTripCall(trip.tripId));
    }

    /** handleCancelTrip after its await, the same shape as FinishEndRide. */
    method FinishCancelTrip(outcome: Remote<()>) returns (steps: seq<Step>)
      modifies this`cancelling, this`error
      ensures !cancelling
      ensures outcome.Done? ==> steps == AFTER_SUCCESS && error == old(error)
      ensures outcome.Failed? ==> steps == [] && error == ErrorText(outcome.message, CANCEL_FAILED)
    {
      if outcome.Done? {
        steps := AFTER_SUCCESS;
      } else {
        error := ErrorText(outcome.message, CANCEL_FAILED);
        steps := [];
      }
      cancelling := false;
    }
  }
}
