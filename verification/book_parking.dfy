/**
 The parking-booking screen: the facility catalog, the cost rule and the
 handlers that move the form from spot selection through payment to the
 post-confirmation reset.

 React applies `setX` calls only at the next render, and a handler reads the
 values of the render it was created in. Two consequences are modelled as
 they are: selecting a spot recomputes the cost from the spot selected
 BEFORE, and the cost effect runs again only when the duration value
 actually changes.
 */
module BookParking {
  import opened Ui

  /** One parking facility as listed in the catalog. */
  datatype Spot = Spot(
    id: nat,
    name: string,
    address: string,
    coordinates: Coordinates,
    available: bool,
    rate: nat,
    capacity: nat,
    availableSpots: nat)

  /** The four Nairobi facilities the screen lists. */
  const Catalog: seq<Spot> := [
    Spot(1, "CBD Parking Complex", "Moi Avenue, Nairobi CBD", Coordinates(-1292100, 36821900), true, 60, 50, 12),
    Spot(2, "Westlands Secure Parking", "Westlands, Mpaka Road", Coordinates(-1268400, 36806100), true, 80, 30, 8),
    Spot(3, "Karen Shopping Center", "Karen, Langata Road", Coordinates(-1319200, 36708900), true, 50, 40, 15),
    Spot(4, "Thika Road Mall Parking", "Thika Road, Mall", Coordinates(-1214600, 36885300), true, 70, 100, 25)
  ]

  /** The hourly rate used while no spot is selected. */
  const DefaultRate: nat := 60

  /** A catalog entry is usable: positive rate, free units within capacity. */
  predicate WellFormedSpot(spot: Spot) {
    spot.rate > 0 && spot.availableSpots <= spot.capacity && spot.available
  }

  /** Every entry is well formed and no two entries share an id. */
  lemma CatalogWellFormed()
    ensures forall i :: 0 <= i < |Catalog| ==> WellFormedSpot(Catalog[i])
    ensures forall i, j :: 0 <= i < j < |Catalog| ==> Catalog[i].id != Catalog[j].id
  {
  }

  /** The form's state: one field per `useState` of the screen. */
  datatype State = State(
    city: string,
    location: string,
    duration: int,
    totalCost: int,
    showMap: bool,
    selected: Option<Spot>,
    showPaymentModal: bool,
    paymentMethod: string,
    phone: string,
    processing: bool,
    availableSpots: seq<Spot>,
    date: int,
    showDatePicker: bool)

  /** What a handler makes visible besides the new state. */
  datatype Feedback =
    | Quiet                                   // no alert
    | Notified(notice: Notice)                // an alert without state change, see ErrorAlert
    | PaymentStarted(pending: PendingPayment) // the simulated-processing timer is armed
    | BookingConfirmed(booking: Booking)      // 'Booking Confirmed!' with an OK button
    | CallbackFailed                          // the timer callback threw before its alert

  /** `Alert.alert('Error', message)` as a handler's feedback. */
  function ErrorAlert(message: string): Feedback {
    Notified(ErrorNotice(message))
  }

  /** The values the payment timer's callback was created with. */
  datatype PendingPayment = PendingPayment(
    spot: Option<Spot>, duration: int, totalCost: int, date: int, paymentMethod: string)

  /** The confirmation record `bookingDetails`; date and time stay unformatted. */
  datatype Booking = Booking(
    id: string, spot: string, location: string, duration: int, totalCost: int, date: int, paymentMethod: string)

  // ---------------------------------------------------------------------------
  // Cost

  /** The hourly rate that applies to a selection. */
  function RateOf(selected: Option<Spot>): nat {
    if selected.Some? then selected.value.rate else DefaultRate
  }

  /**
   `calculateTotalCost`, as a value: hourly rate times duration. A booking
   of at least one hour costs at least one hour's rate, and with a positive
   rate only zero hours cost nothing.
   */
  function TotalCost(selected: Option<Spot>, duration: int): (r: int)
    ensures duration >= 1 ==> r >= RateOf(selected)
    ensures RateOf(selected) > 0 ==> (r == 0 <==> duration == 0)
    ensures RateOf(selected) > 0 && duration >= 1 ==> r > 0
  {
    var cost := RateOf(selected) * duration;
    assert duration >= 1 ==> cost == RateOf(selected) + RateOf(selected) * (duration - 1);
    cost
  }

  /**
   The cost is the selected spot's rate times the duration, the default
   rate of 60 when nothing is selected, and each extra hour adds one rate.
   */
  lemma TotalCostIsRateTimesHours(selected: Option<Spot>, duration: int)
    ensures selected.None? ==> TotalCost(selected, duration) == 60 * duration
    ensures selected.Some? ==> TotalCost(selected, duration) == selected.value.rate * duration
    ensures TotalCost(selected, duration + 1) == TotalCost(selected, duration) + RateOf(selected)
  {
  }

  /** Flat-rate pricing is additive in the duration. */
  lemma TotalCostAdditive(selected: Option<Spot>, d1: int, d2: int)
    ensures TotalCost(selected, d1 + d2) == TotalCost(selected, d1) + TotalCost(selected, d2)
  {
  }

  /**
   The effect that reruns whenever `duration` changes: it reloads the
   catalog into the list and recomputes the cost from the current values.
   */
  function DurationEffect(s: State): (r: State)
    ensures r.totalCost == TotalCost(s.selected, s.duration)
    ensures r.availableSpots == Catalog
    ensures r == s.(totalCost := r.totalCost, availableSpots := Catalog)
  {
    s.(availableSpots := Catalog, totalCost := TotalCost(s.selected, s.duration))
  }

  /** The state of the first render, before the mount effect. */
  function FirstRender(now: int): State {
    State("Nairobi", "", 1, 60, false, None, false, "", "", false, [], now, false)
  }

  /** The form once mounted: the mount effect has loaded the catalog. */
  function Initial(now: int): (r: State)
    ensures r.duration == 1 && r.totalCost == 60 && r.selected.None? && r.location == []
    ensures r.availableSpots == Catalog && !r.showPaymentModal && !r.processing
    ensures r.city == "Nairobi" && r.date == now
    ensures r.paymentMethod == [] && r.phone == [] && !r.showMap && !r.showDatePicker
  {
    DurationEffect(FirstRender(now))
  }

  // ---------------------------------------------------------------------------
  // Selection and duration

  /**
   `handleParkingSpotSelect`: the spot becomes the selection, its name the
   location text, and the map closes. The cost is recomputed from the
   selection that was current BEFORE this call.
   */
  function SelectSpot(s: State, spot: Spot): (r: State)
    ensures r.selected == Some(spot) && r.location == spot.name && !r.showMap
    ensures r.totalCost == RateOf(s.selected) * s.duration
    ensures r == s.(selected := Some(spot), location := spot.name, showMap := false, totalCost := r.totalCost)
  {
    s.(selected := Some(spot), location := spot.name, showMap := false,
       totalCost := TotalCost(s.selected, s.duration))
  }

  /**
   Sets the duration. React skips a render when the value is unchanged, so
   the cost effect runs only for a new value.
   */
  function SetDuration(s: State, d: int): (r: State)
    ensures r.duration == d
    ensures d != s.duration ==> r.totalCost == TotalCost(s.selected, d) && r.availableSpots == Catalog
    ensures d == s.duration ==> r == s
    ensures r == s.(duration := d, totalCost := r.totalCost, availableSpots := r.availableSpots)
  {
    if d == s.duration then s else DurationEffect(s.(duration := d))
  }

  /** The minus button: one hour less, but never below one. */
  function DecrementDuration(s: State): (r: State)
    ensures s.duration > 1 ==> r.duration == s.duration - 1 && r.totalCost == TotalCost(s.selected, r.duration)
    ensures s.duration <= 1 ==> r.duration == 1
    ensures s.duration == 1 ==> r == s
    ensures r.duration >= 1
    ensures r.duration != s.duration ==> r.availableSpots == Catalog
    ensures r == s.(duration := r.duration, totalCost := r.totalCost, availableSpots := r.availableSpots)
  {
    SetDuration(s, if s.duration - 1 > 1 then s.duration - 1 else 1)
  }

  /** The plus button: one hour more, and the cost follows the current selection. */
  function IncrementDuration(s: State): (r: State)
    ensures r.duration == s.duration + 1
    ensures r.totalCost == TotalCost(s.selected, r.duration)
    ensures r.availableSpots == Catalog
    ensures r == s.(duration := r.duration, totalCost := r.totalCost, availableSpots := Catalog)
  {
    SetDuration(s, s.duration + 1)
  }

  // ---------------------------------------------------------------------------
  // Booking and payment

  const NoSpotMessage: string := "Please select a parking spot"
  const BadDurationMessage: string := "Please select a valid duration"
  const NoMethodMessage: string := "Please select a payment method"
  const NoPhoneMessage: string := "Please enter your phone number"

  /**
   `handleBookParking`: the spot check comes first, then the duration
   check; only passing both opens the payment modal. A rejection changes
   nothing.
   */
  function HandleBook(s: State): (r: (State, Feedback))
    ensures s.selected.None? ==> r == (s, ErrorAlert(NoSpotMessage))
    ensures s.selected.Some? && s.duration < 1 ==> r == (s, ErrorAlert(BadDurationMessage))
    ensures r.0.showPaymentModal <==> s.showPaymentModal || (s.selected.Some? && s.duration >= 1)
    ensures r.0 == s.(showPaymentModal := r.0.showPaymentModal)
    ensures r.1 == Quiet <==> s.selected.Some? && s.duration >= 1
  {
    if s.selected.None? then (s, ErrorAlert(NoSpotMessage))
    else if s.duration < 1 then (s, ErrorAlert(BadDurationMessage))
    else (s.(showPaymentModal := true), Quiet)
  }

  /** The modal's Cancel button closes it and changes nothing else. */
  function CancelPayment(s: State): (r: State)
    ensures !r.showPaymentModal
    ensures r.(showPaymentModal := s.showPaymentModal) == s
  {
    s.(showPaymentModal := false)
  }

  /**
   `processPayment`, up to its timer: a missing method is reported first,
   then a missing phone number, each without touching the state. Otherwise
   the processing flag is raised and the timer keeps the current spot,
   duration, cost, date and method.
   */
  function ProcessPayment(s: State): (r: (State, Feedback))
    ensures s.paymentMethod == [] ==> r == (s, ErrorAlert(NoMethodMessage))
    ensures s.paymentMethod != [] && s.phone == [] ==> r == (s, ErrorAlert(NoPhoneMessage))
    ensures s.paymentMethod != [] && s.phone != [] ==>
              && r.0 == s.(processing := true)
              && r.1 == PaymentStarted(PendingPayment(s.selected, s.duration, s.totalCost, s.date, s.paymentMethod))
    ensures r.1.Notified? ==> r.0 == s
  {
    if s.paymentMethod == [] then (s, ErrorAlert(NoMethodMessage))
    else if s.phone == [] then (s, ErrorAlert(NoPhoneMessage))
    else (s.(processing := true),
          PaymentStarted(PendingPayment(s.selected, s.duration, s.totalCost, s.date, s.paymentMethod)))
  }

  /**
   The timer callback: processing stops and the modal closes; then the
   booking record is built from the captured values. The random booking id
   is a parameter. Without a captured spot, reading its name throws and no
   confirmation is shown.
   */
  function CompletePayment(s: State, p: PendingPayment, id: string): (r: (State, Feedback))
    ensures !r.0.processing && !r.0.showPaymentModal
    ensures r.0 == s.(processing := false, showPaymentModal := false)
    ensures p.spot.Some? ==>
              && r.1.BookingConfirmed?
              && r.1.booking.spot == p.spot.value.name
              && r.1.booking.location == p.spot.value.address
              && r.1.booking.duration == p.duration
              && r.1.booking.totalCost == p.totalCost
              && r.1.booking.paymentMethod == p.paymentMethod
              && r.1.booking.date == p.date
              && r.1.booking.id == id
    ensures p.spot.None? ==> r.1 == CallbackFailed
  {
    var s' := s.(processing := false, showPaymentModal := false);
    match p.spot
    case Some(spot) =>
      (s', BookingConfirmed(Booking(id, spot.name, spot.address, p.duration, p.totalCost, p.date, p.paymentMethod)))
    case None => (s', CallbackFailed)
  }

  /**
   The OK button of the confirmation: the spot, location text, method and
   phone are cleared and the duration goes back to 1; city and date stay.
   The cost effect reruns only if the duration was not already 1, so a
   one-hour booking leaves the previous cost on display.
   */
  function ResetAfterConfirmation(s: State): (r: State)
    ensures r.selected.None? && r.location == [] && r.duration == 1
    ensures r.paymentMethod == [] && r.phone == []
    ensures r.city == s.city && r.date == s.date
    ensures s.duration != 1 ==> r.totalCost == DefaultRate
    ensures s.duration == 1 ==> r.totalCost == s.totalCost
    ensures s.duration != 1 ==> r.availableSpots == Catalog
    ensures s.duration == 1 ==> r.availableSpots == s.availableSpots
    ensures r == s.(selected := None, location := "", duration := 1, paymentMethod := "", phone := "",
                    totalCost := r.totalCost, availableSpots := r.availableSpots)
  {
    var cleared := s.(selected := None, location := "", paymentMethod := "", phone := "");
    SetDuration(cleared, 1)
  }

  // ---------------------------------------------------------------------------
  // Smaller controls

  datatype PaymentMethod = MPesa | AirtelMoney

  /** The value a payment-method button stores. */
  function MethodCode(m: PaymentMethod): (code: string)
    ensures code != []
  {
    match m
    case MPesa => "mpesa"
    case AirtelMoney => "airtel"
  }

  /** The two payment-method buttons store distinct codes. */
  lemma MethodCodesDistinct()
    ensures MethodCode(MPesa) != MethodCode(AirtelMoney)
  {
  }
}
