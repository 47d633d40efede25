/**
 * The rental form: the price of a rental, the duration stepper, the ordered
 * checks of a confirmation and the `isConfirming` flag around its request.
 */
module RentTractor {
  import opened Wrappers
  import opened Strings

  datatype RentalType = Hourly | Daily

  /** What the form reads of the tractor record. */
  datatype TractorData = TractorData(rentPerHour: int, rentPerDay: int, isAvailable: bool)

  /** The price of one unit of the chosen rental type. */
  function Rate(t: TractorData, rentalType: RentalType): int {
    if rentalType == Hourly then t.rentPerHour else t.rentPerDay
  }

  /** `totalCost`: nothing before the tractor has loaded, else the unit price times the duration. */
  function TotalCost(tractor: Option<TractorData>, rentalType: RentalType, duration: int): (cost: int)
    ensures tractor.None? ==> cost == 0
  {
    if tractor.None? then 0
    else if rentalType == Hourly then tractor.value.rentPerHour * duration
    else tractor.value.rentPerDay * duration
  }

  /** The price of `units` units, added up one unit at a time. */
  function Accumulated(rate: int, units: nat): int {
    if units == 0 then 0 else Accumulated(rate, units - 1) + rate
  }

  /** The total is the unit price charged once per unit of the duration. */
  lemma {:induction false} TotalCostIsAccumulated(t: TractorData, rentalType: RentalType, duration: nat)
    ensures TotalCost(Some(t), rentalType, duration) == Accumulated(Rate(t, rentalType), duration)
  {
    if duration > 0 {
      TotalCostIsAccumulated(t, rentalType, duration - 1);
      assert Rate(t, rentalType) * duration == Rate(t, rentalType) * (duration - 1) + Rate(t, rentalType);
    }
  }

  /** One more unit costs one more unit price; a single unit costs the price shown on its button. */
  lemma CostStep(t: TractorData, rentalType: RentalType, duration: int)
    ensures TotalCost(Some(t), rentalType, duration + 1)
         == TotalCost(Some(t), rentalType, duration) + Rate(t, rentalType)
    ensures TotalCost(Some(t), rentalType, 1) == Rate(t, rentalType)
  {
    assert Rate(t, rentalType) * (duration + 1) == Rate(t, rentalType) * duration + Rate(t, rentalType);
  }

  /** With a nonnegative price, a rental of at least one unit costs at least one unit price. */
  lemma CostAtLeastRate(t: TractorData, rentalType: RentalType, duration: int)
    requires Rate(t, rentalType) >= 0 && duration >= 1
    ensures Rate(t, rentalType) <= TotalCost(Some(t), rentalType, duration)
  {
    var rate := Rate(t, rentalType);
    assert rate * duration == rate + rate * (duration - 1);
    assert rate * (duration - 1) >= 0;
  }

  /** With nonnegative prices a longer rental never costs less, and never less than one unit. */
  lemma {:induction false} CostMonotone(t: TractorData, rentalType: RentalType, d1: int, d2: int)
    requires Rate(t, rentalType) >= 0 && 1 <= d1 <= d2
    ensures Rate(t, rentalType) <= TotalCost(Some(t), rentalType, d1) <= TotalCost(Some(t), rentalType, d2)
    decreases d2 - d1
  {
    CostAtLeastRate(t, rentalType, d1);
    if d1 < d2 {
      CostMonotone(t, rentalType, d1, d2 - 1);
      CostStep(t, rentalType, d2 - 1);
    }
  }

  /** `Math.max(1, duration - 1)`, the minus button. */
  function Decremented(duration: int): (d: int)
    ensures d >= 1
    ensures duration > 1 ==> d == duration - 1
    ensures duration <= 1 ==> d == 1
  {
    if duration - 1 > 1 then duration - 1 else 1
  }

  /** The minus button undoes the plus button on any valid duration. */
  lemma DecrementUndoesIncrement(duration: int)
    requires duration >= 1
    ensures Decremented(duration + 1) == duration
  {
  }

  /** The checks run when confirming, in the order they are made. */
  datatype ValidationError = MissingStartDate | MissingName | MissingEmail

  /**
   * The early returns of `handleConfirmRent`: an empty start date first, then
   * a name that trims to nothing, then an email that trims to nothing.
   */
  function Validate(startDate: string, renterName: string, renterEmail: string): (e: Option<ValidationError>)
    ensures e == Some(MissingStartDate) <==> startDate == ""
    ensures e == Some(MissingName) <==> startDate != "" && AllSpace(renterName)
    ensures e == Some(MissingEmail) <==> startDate != "" && !AllSpace(renterName) && AllSpace(renterEmail)
    ensures e == None <==> startDate != "" && !AllSpace(renterName) && !AllSpace(renterEmail)
  {
    TrimEmptyIffAllSpace(renterName);
    TrimEmptyIffAllSpace(renterEmail);
    if startDate == "" then Some(MissingStartDate)
    else if Trim(renterName) == "" then Some(MissingName)
    else if Trim(renterEmail) == "" then Some(MissingEmail)
    else None
  }

  /** A missing start date is the error reported, whatever the name and email are. */
  lemma StartDateCheckedFirst(renterName: string, renterEmail: string)
    ensures Validate("", renterName, renterEmail) == Some(MissingStartDate)
  {
  }

  /**
   * The body of the confirmation request.  The start time is not part of it,
   * and the name and email go out as typed, untrimmed.
   */
  datatype RentalRequest = RentalRequest(tractorId: string, renterEmail: string, renterName: string,
                                         startDate: string, rentalType: RentalType, duration: int,
                                         totalCost: int)

  /** The outcome of the confirmation request. */
  datatype ConfirmResponse =
    | TransportError                                 // the request or its body could not be read
    | Answered(ok: bool, message: Option<string>)    // the status and the body's `message`

  /** What the user is told. */
  datatype Notice = Invalid(error: ValidationError) | Confirmed | Failure(text: string)

  const FallbackFailure: string := "Failed to confirm rental"
  const TransportFailure: string := "Error confirming rental. Please try again."

  /**
   * The notice for a settled request: success on an OK status, the server's
   * message (or a fallback when it is absent or empty) otherwise, and a fixed
   * text when the request failed outright.
   */
  function NoticeFor(response: ConfirmResponse): (n: Notice)
    ensures n.Confirmed? <==> response.Answered? && response.ok
    ensures n.Failure? ==> n.text != ""
    ensures response.TransportError? ==> n == Failure(TransportFailure)
    ensures response.Answered? && !response.ok && response.message.Some? && response.message.value != ""
            ==> n == Failure(response.message.value)
    ensures response.Answered? && !response.ok && (response.message.None? || response.message == Some(""))
            ==> n == Failure(FallbackFailure)
  {
    match response
    case TransportError => Failure(TransportFailure)
    case Answered(ok, message) =>
      if ok then Confirmed
      else if message.Some? && message.value != "" then Failure(message.value)
      else Failure(FallbackFailure)
  }

  /** The confirm button is disabled while a confirmation runs or when the tractor is rented out. */
  function ConfirmDisabled(isConfirming: bool, tractor: TractorData): (b: bool)
    ensures isConfirming ==> b
    ensures !tractor.isAvailable ==> b
    ensures b ==> isConfirming || !tractor.isAvailable
  {
    isConfirming || !tractor.isAvailable
  }

  /** The page's state. */
  class RentalForm {
    const tractorId: string
    var tractor: Option<TractorData>
    var loading: bool
    var rentalType: RentalType
    var duration: int
    var startDate: string
    var startTime: string
    var renterName: string
    var renterEmail: string
    var isConfirming: bool

    ghost predicate Valid()
      reads this
    {
      duration >= 1
    }

    /** The request a confirmation would send now. */
    function Request(): RentalRequest
      reads this
    {
      RentalRequest(tractorId, renterEmail, renterName, startDate, rentalType, duration,
                    TotalCost(tractor, rentalType, duration))
    }

    /** A daily rental of one unit, empty inputs, no tractor yet, loading. */
    constructor (id: string)
      ensures Valid() && tractorId == id && tractor == None && loading
      ensures rentalType == Daily && duration == 1
      ensures startDate == "" && startTime == "" && renterName == "" && renterEmail == ""
      ensures !isConfirming
    {
      tractorId := id;
      tractor, loading := None, true;
      rentalType, duration := Daily, 1;
      startDate, startTime, renterName, renterEmail := "", "", "", "";
      isConfirming := false;
    }

    /** `fetchTractor` once settled: a loaded record replaces the tractor, a failure keeps it. */
    method TractorLoaded(outcome: Option<TractorData>)
      modifies this`tractor, this`loading
      ensures outcome.Some? ==> tractor == outcome
      ensures outcome.None? ==> tractor == old(tractor)
      ensures !loading
    {
      if outcome.Some? {
        tractor := outcome;
      }
      loading := false;
    }

    /** The minus button. */
    method DecreaseDuration()
      requires Valid()
      modifies this`duration
      ensures Valid() && duration == Decremented(old(duration))
    {
      duration := if duration - 1 > 1 then duration - 1 else 1;
    }

    /** The plus button. */
    method IncreaseDuration()
      requires Valid()
      modifies this`duration
      ensures Valid() && duration == old(duration) + 1
    {
      duration := duration + 1;
    }

    /**
     * The first half of `handleConfirmRent`: a failed check returns before
     * the flag is raised and before anything is sent; otherwise
     * `isConfirming` is set and the request built from the current inputs
     * goes out.
     */
    method BeginConfirm() returns (sent: Option<RentalRequest>, notice: Option<Notice>)
      modifies this`isConfirming
      ensures Validate(startDate, renterName, renterEmail).Some? ==>
        sent == None && notice == Some(Invalid(Validate(startDate, renterName, renterEmail).value))
        && isConfirming == old(isConfirming)
      ensures Validate(startDate, renterName, renterEmail).None? ==>
        sent == Some(Request()) && notice == None && isConfirming
    {
      if startDate == "" {
        return None, Some(Invalid(MissingStartDate));
      }
      if Trim(renterName) == "" {
        return None, Some(Invalid(MissingName));
      }
      if Trim(renterEmail) == "" {
        return None, Some(Invalid(MissingEmail));
      }
      isConfirming := true;
      sent := Some(RentalRequest(tractorId, renterEmail, renterName, startDate, rentalType, duration,
                                 TotalCost(tractor, rentalType, duration)));
      notice := None;
    }

    /** The second half, once the request has settled: the notice, and the flag cleared in every case. */
    method FinishConfirm(response: ConfirmResponse) returns (notice: Notice)
      modifies this`isConfirming
      ensures notice == NoticeFor(response) && !isConfirming
    {
      notice := NoticeFor(response);
      isConfirming := false;
    }
  }

  /**
   * A click on the confirm button.  A disabled button does nothing; otherwise
   * the checks run, and a request that goes out is followed through to its
   * notice with `isConfirming` down again at the end.
   */
  method ClickConfirm(form: RentalForm, response: ConfirmResponse)
    returns (sent: Option<RentalRequest>, notice: Option<Notice>)
    requires form.tractor.Some?
    modifies form`isConfirming
    ensures ConfirmDisabled(old(form.isConfirming), old(form.tractor.value)) ==>
      sent == None && notice == None && form.isConfirming == old(form.isConfirming)
    ensures !ConfirmDisabled(old(form.isConfirming), old(form.tractor.value)) ==>
      var e := Validate(form.startDate, form.renterName, form.renterEmail);
      !form.isConfirming
      && (e.Some? ==> sent == None && notice == Some(Invalid(e.value)))
      && (e.None? ==> sent == Some(form.Request()) && notice == Some(NoticeFor(response)))
    ensures form.tractor == old(form.tractor) && form.duration == old(form.duration)
    ensures form.startDate == old(form.startDate) && form.renterName == old(form.renterName)
    ensures form.renterEmail == old(form.renterEmail) && form.rentalType == old(form.rentalType)
  {
    if ConfirmDisabled(form.isConfirming, form.tractor.value) {
      return None, None;
    }
    ghost var request := form.Request();
    sent, notice := form.BeginConfirm();
    assert form.Request() == request;
    if sent.Some? {
      var n := form.FinishConfirm(response);
      notice := Some(n);
      assert form.Request() == request;
    }
  }
}
