/** app/guard/page.tsx, handler logic only: one guard's check-in attempt. The
    component's state hooks are the fields of `GuardDashboard`; the
    asynchronous answers (the geolocation callbacks and the response to the
    submit request) arrive as parameters of the transition methods. */
module GuardPage {
  import opened Wrappers
  import opened Seqs
  import Text
  import opened ChecklistMap
  import opened Data
  import PatrolsRoute
  import Api

  /** The signed-in user as read from the browser session. */
  datatype SessionUser = SessionUser(id: string, username: string, role: Role, name: string)

  datatype Position = Position(lat: real, lng: real)

  /** How the submit request ended. */
  datatype SubmitOutcome =
    | Accepted                          // `res.ok`
    | Rejected(error: Option<string>)   // an error status, with the body's `error` if any
    | Failed                            // the request or the JSON parse threw

  const NotSupportedMessage := "Geolocation is not supported by your browser"
  const PositionUnavailableMessage := "Unable to get your location. Please enable location services."
  const CompletedMessage := "Patrol completed successfully!"
  const DefaultSubmitError := "Failed to submit patrol"
  const SubmitCrashedMessage := "An error occurred while submitting the patrol"

  /** The patrols a guard is expected to complete per day. */
  const DailyPatrols: nat := 5

  function TooFarMessage(distance: real): string {
    "You are " + Text.IntToString(Text.Round(distance))
      + "m away from the checkpoint. You must be within 50 meters to start the patrol."
  }

  /** `data.error || 'Failed to submit patrol'` */
  function RejectionText(error: Option<string>): (text: string)
    ensures text != ""
    ensures error.Some? && error.value != "" ==> text == error.value
    ensures !(error.Some? && error.value != "") ==> text == DefaultSubmitError
  {
    if error.Some? && error.value != "" then error.value else DefaultSubmitError
  }

  /** What the page sees of a response of the check-in route. */
  function OutcomeOf(resp: Result<PatrolRecord, Api.ApiError>): SubmitOutcome {
    match resp
    case Ok(_) => Accepted
    case Err(e) => Rejected(Some(e.message))
  }

  /** Every rejection of the check-in gate reaches the guard with the gate's own
      words (the generic text is never needed for it). */
  lemma GateRejectionShownVerbatim(users: seq<User>, locations: seq<Location>, body: PatrolsRoute.CheckInBody,
                                   distance: DistanceFn, timestamp: string)
    requires PatrolsRoute.Admit(users, locations, body, distance, timestamp).Err?
    ensures var e := PatrolsRoute.Admit(users, locations, body, distance, timestamp).error;
      OutcomeOf(Err(e)) == Rejected(Some(e.message)) && RejectionText(Some(e.message)) == e.message
  {
    var e := PatrolsRoute.Admit(users, locations, body, distance, timestamp).error;
    match (First(locations, LocationIdIs(body.locationId)), First(users, UserIdIs(body.guardId)))
    case (Some(location), Some(_)) =>
      var d := distance(body.latitude, body.longitude, location.latitude, location.longitude);
      assert e == PatrolsRoute.OutOfRange(d);
    case _ =>
      assert e == PatrolsRoute.InvalidLocationOrGuard;
  }

  /** The initial checklist: `forEach(item => initialChecklist[item] = false)`.
      Its keys are the checkpoint's items with repeats collapsed, all unchecked. */
  method InitialChecklist(items: seq<string>) returns (m: Checklist)
    ensures Keys(m) == Dedup(items)
    ensures forall e :: e in m ==> !e.done
    ensures ChecklistMap.Valid(m)
  {
    m := [];
    for i := 0 to |items|
      invariant Keys(m) == Dedup(items[..i])
      invariant forall e :: e in m ==> !e.done
      invariant ChecklistMap.Valid(m)
    {
      assert items[..i + 1][..i] == items[..i];
      SetValid(m, items[i], false);
      m := Set(m, items[i], false);
    }
    assert items[..|items|] == items;
  }

  /** A freshly seeded checklist blocks submission exactly when the checkpoint
      has at least one item: an empty checklist can be submitted at once. */
  lemma {:induction false} SeededChecklistBlocksSubmit(m: Checklist, items: seq<string>)
    requires Keys(m) == Dedup(items)
    requires forall e :: e in m ==> !e.done
    ensures AnyUnchecked(m) <==> items != []
  {
    if items != [] {
      assert items[0] in Dedup(items);
      assert |m| > 0 && !m[0].done;
    }
  }

  /** The page's own proximity test in the position callback: the checklist
      opens unless the distance exceeds the radius. */
  predicate PageOpens(distance: DistanceFn, lat: real, lng: real, location: Location) {
    !(distance(lat, lng, location.latitude, location.longitude) > CheckInRadius)
  }

  /** On the same coordinates and the same checkpoint, the page opens the
      checklist exactly when the check-in gate would accept. */
  lemma PageAndGateAgree(users: seq<User>, locations: seq<Location>, body: PatrolsRoute.CheckInBody,
                         distance: DistanceFn, timestamp: string, i: nat)
    requires IsFirstMatch(locations, LocationIdIs(body.locationId), i)
    requires exists u :: u in users && u.id == body.guardId
    ensures PatrolsRoute.Admit(users, locations, body, distance, timestamp).Ok?
        <==> PageOpens(distance, body.latitude, body.longitude, locations[i])
  {
    var j := IndexOfFirst(users, UserIdIs(body.guardId)).value;
  }

  class GuardDashboard {
    var user: Option<SessionUser>
    var patrols: seq<PatrolRecord>
    var selectedLocation: Option<Location>
    var currentPosition: Option<Position>
    var checklist: Checklist
    var loading: bool
    var error: string
    var success: string

    ghost predicate Valid()
      reads this
    {
      ChecklistMap.Valid(checklist)
    }

    constructor (user: Option<SessionUser>)
      ensures Valid()
      ensures this.user == user && patrols == [] && selectedLocation == None && currentPosition == None
      ensures checklist == [] && !loading && error == "" && success == ""
    {
      this.user := user;
      patrols := [];
      selectedLocation := None;
      currentPosition := None;
      checklist := [];
      loading := false;
      error := "";
      success := "";
    }

    /** `startPatrol(location)`, up to the position request: messages are
        cleared and loading starts; without geolocation it stops there with an
        error and no checklist is opened. */
    method StartPatrol(geolocationSupported: bool)
      modifies this`error, this`success, this`loading
      ensures success == ""
      ensures geolocationSupported ==> error == "" && loading
      ensures !geolocationSupported ==> error == NotSupportedMessage && !loading
    {
      error := "";
      success := "";
      loading := true;
      if !geolocationSupported {
        error := NotSupportedMessage;
        loading := false;
      }
    }

    /** The position callback of `startPatrol(location)`. The position is kept
        in every case; beyond 50 m the attempt ends with the rounded distance in
        the error, otherwise the checkpoint is selected with a fresh checklist. */
    method PositionFound(location: Location, lat: real, lng: real, distance: DistanceFn)
      requires Valid()
      modifies this`currentPosition, this`error, this`loading, this`selectedLocation, this`checklist
      ensures Valid()
      ensures currentPosition == Some(Position(lat, lng)) && !loading
      ensures var d := distance(lat, lng, location.latitude, location.longitude);
        if !PageOpens(distance, lat, lng, location) then
          error == TooFarMessage(d) && selectedLocation == old(selectedLocation) && checklist == old(checklist)
        else
          && error == old(error) && selectedLocation == Some(location)
          && Keys(checklist) == Dedup(location.checklist) && (forall e :: e in checklist ==> !e.done)
    {
      currentPosition := Some(Position(lat, lng));
      var d := distance(lat, lng, location.latitude, location.longitude);
      if d > CheckInRadius {
        error := TooFarMessage(d);
        loading := false;
        return;
      }
      selectedLocation := Some(location);
      checklist := InitialChecklist(location.checklist);
      loading := false;
    }

    /** The error callback of `startPatrol`: a message distinct from the
        out-of-range one, and nothing selected. */
    method PositionFailed()
      modifies this`error, this`loading
      ensures error == PositionUnavailableMessage && !loading
    {
      error := PositionUnavailableMessage;
      loading := false;
    }

    /** `handleChecklistChange(item)`: `{ ...prev, [item]: !prev[item] }`. */
    method ToggleItem(item: string)
      requires Valid()
      modifies this`checklist
      ensures Valid()
      ensures Get(checklist, item) == Some(!old(Get(checklist, item)).GetOr(false))
      ensures forall k :: k != item ==> Get(checklist, k) == old(Get(checklist, k))
      ensures item in old(Keys(checklist)) ==> Keys(checklist) == old(Keys(checklist))
    {
      var previous := Get(checklist, item);
      SetThenGet(checklist, item, !previous.GetOr(false));
      SetValid(checklist, item, !previous.GetOr(false));
      forall k | k != item
        ensures Get(Set(checklist, item, !previous.GetOr(false)), k) == Get(checklist, k)
      {
        SetKeepsOthers(checklist, item, !previous.GetOr(false), k);
      }
      checklist := Set(checklist, item, !previous.GetOr(false));
    }

    /** The submit button's enabled state:
        `!(loading || Object.values(checklist).some(v => !v))`. */
    function SubmitEnabled(): (enabled: bool)
      reads this
      ensures enabled <==> !loading && forall i :: 0 <= i < |checklist| ==> checklist[i].done
    {
      !(loading || AnyUnchecked(checklist))
    }

    /** `submitPatrol()`, with `outcome` the way the request ended. Without a
        selection, a position and a user nothing happens. Otherwise the request
        carries the checklist as it stands; on success the session is closed, on
        failure it is kept for a retry; loading ends either way. */
    method SubmitPatrol(outcome: SubmitOutcome) returns (sent: Option<PatrolsRoute.CheckInBody>)
      requires Valid()
      modifies this`loading, this`error, this`success, this`selectedLocation, this`checklist
      ensures Valid()
      ensures old(selectedLocation.None? || currentPosition.None? || user.None?) ==>
        sent == None && unchanged(this)
      // a submit the button allows carries only checked items
      ensures old(SubmitEnabled()) && sent.Some? ==> forall e :: e in sent.value.checklistResults ==> e.done
      ensures old(selectedLocation.Some? && currentPosition.Some? && user.Some?) ==>
        && sent == Some(PatrolsRoute.CheckInBody(old(user.value.id), old(selectedLocation.value.id),
                                    old(currentPosition.value.lat), old(currentPosition.value.lng),
                                    old(checklist), None))
        && !loading
        && match outcome
          case Accepted =>
            success == CompletedMessage && error == "" && selectedLocation == None && checklist == []
          case Rejected(e) =>
            && error == RejectionText(e) && success == old(success)
            && selectedLocation == old(selectedLocation) && checklist == old(checklist)
          case Failed =>
            && error == SubmitCrashedMessage && success == old(success)
            && selectedLocation == old(selectedLocation) && checklist == old(checklist)
    {
      if selectedLocation.None? || currentPosition.None? || user.None? {
        return None;
      }
      loading := true;
      error := "";
      sent := Some(PatrolsRoute.CheckInBody(user.value.id, selectedLocation.value.id,
                               currentPosition.value.lat, currentPosition.value.lng, checklist, None));
      match outcome {
        case Accepted =>
          success := CompletedMessage;
          selectedLocation := None;
          checklist := [];
        case Rejected(e) =>
          error := RejectionText(e);
        case Failed =>
          error := SubmitCrashedMessage;
      }
      loading := false;
    }

    /** The Cancel button (and a click on the overlay): closes the checklist.
        The checklist values and the position stay as they were. */
    method Cancel()
      modifies this`selectedLocation
      ensures selectedLocation == None
    {
      selectedLocation := None;
    }

    /** `loadPatrols(guardId)` resolving: today's records for the progress panel. */
    method PatrolsLoaded(records: seq<PatrolRecord>)
      modifies this`patrols
      ensures patrols == records
    {
      patrols := records;
    }

    /** `patrols.length` */
    function CompletedPatrols(): nat
      reads this
    {
      |patrols|
    }

    /** `5 - completedPatrols`: negative once more than five are done. */
    function RemainingPatrols(): int
      reads this
    {
      DailyPatrols - CompletedPatrols()
    }

    /** `(completedPatrols / 5) * 100`, which can exceed 100. */
    function ProgressPercentage(): real
      reads this
    {
      CompletedPatrols() as real / DailyPatrols as real * 100.0
    }
  }

  /** The progress bar is full exactly when the panel says that no patrols remain,
      and every completed patrol is worth 20 percent. */
  lemma ProgressFullIffNoneRemaining(page: GuardDashboard)
    ensures page.ProgressPercentage() >= 100.0 <==> page.RemainingPatrols() <= 0
    ensures page.ProgressPercentage() == 20.0 * page.CompletedPatrols() as real
  {
  }
}
