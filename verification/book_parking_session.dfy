/**
 The booking screen as the user drives it: each press goes through the
 button's `disabled` guard before its handler runs, and the properties
 that hold of every form reachable from the mounted screen.
 */
module BookParkingSession {
  import opened Ui
  import opened BookParking

  /** One press or entry on the screen. */
  datatype Action =
    | OpenMap
    | CloseMap
    | PickSpot(index: nat)            // a card or marker of the listed spots
    | Minus
    | Plus
    | ChooseCity(city: string)
    | OpenDatePicker
    | PickDate(chosen: Option<int>)   // the picker's `date`, absent when dismissed
    | PressBook
    | ChooseMethod(choice: PaymentMethod)
    | EnterPhone(text: string)
    | CancelModal
    | PressPay(bookingId: string)     // pay; the timer fires; the user presses OK

  /** The book button is disabled without a spot or while processing. */
  predicate BookEnabled(s: State) {
    s.selected.Some? && !s.processing
  }

  /** The pay button is disabled without method or phone, or while processing. */
  predicate PayEnabled(s: State) {
    s.paymentMethod != [] && s.phone != [] && !s.processing
  }

  /**
   Paying, as one step: the handler, then its timer's callback, then (when
   the confirmation appeared) the OK button that resets the form.
   */
  function PayThrough(s: State, bookingId: string): (r: (State, Feedback))
    ensures s.paymentMethod == [] ==> r == (s, ErrorAlert(NoMethodMessage))
    ensures s.paymentMethod != [] && s.phone == [] ==> r == (s, ErrorAlert(NoPhoneMessage))
    ensures s.paymentMethod != [] && s.phone != [] && s.selected.Some? ==>
              && r.1 == BookingConfirmed(Booking(bookingId, s.selected.value.name, s.selected.value.address,
                                                 s.duration, s.totalCost, s.date, s.paymentMethod))
              && r.0.selected.None? && r.0.location == [] && r.0.duration == 1
              && r.0.paymentMethod == [] && r.0.phone == []
              && r.0.city == s.city && r.0.date == s.date
              && r.0 == s.(selected := None, location := "", duration := 1, paymentMethod := "", phone := "",
                           processing := false, showPaymentModal := false,
                           totalCost := r.0.totalCost, availableSpots := r.0.availableSpots)
              && (s.duration == 1 ==> r.0.totalCost == s.totalCost && r.0.availableSpots == s.availableSpots)
              && (s.duration != 1 ==> r.0.totalCost == DefaultRate && r.0.availableSpots == Catalog)
    ensures s.paymentMethod != [] && s.phone != [] && s.selected.None? ==>
              r == (s.(processing := false, showPaymentModal := false), CallbackFailed)
    ensures s.paymentMethod != [] && s.phone != [] ==> !r.0.processing && !r.0.showPaymentModal
  {
    var (s1, started) := ProcessPayment(s);
    if !started.PaymentStarted? then (s1, started)
    else
      var (s2, shown) := CompletePayment(s1, started.pending, bookingId);
      if shown.BookingConfirmed? then (ResetAfterConfirmation(s2), shown) else (s2, shown)
  }

  /** The form after one action, and what the user saw. */
  function Step(s: State, a: Action): (r: (State, Feedback))
    ensures a.PressBook? && !BookEnabled(s) ==> r == (s, Quiet)
    ensures a.PressPay? && !(s.showPaymentModal && PayEnabled(s)) ==> r == (s, Quiet)
    ensures a.PressPay? && s.showPaymentModal && PayEnabled(s) && s.selected.Some? ==> r.1.BookingConfirmed?
    ensures r.0.availableSpots == s.availableSpots || r.0.availableSpots == Catalog
    ensures s.duration >= 1 ==> r.0.duration >= 1
    ensures !s.processing ==> !r.0.processing
  {
    match a
    case OpenMap => (s.(showMap := true), Quiet)
    case CloseMap => (s.(showMap := false), Quiet)
    case PickSpot(i) =>
      if i < |s.availableSpots| then (SelectSpot(s, s.availableSpots[i]), Quiet) else (s, Quiet)
    case Minus => (DecrementDuration(s), Quiet)
    case Plus => (IncrementDuration(s), Quiet)
    case ChooseCity(c) => (s.(city := c), Quiet)
    case OpenDatePicker => (s.(showDatePicker := true), Quiet)
    case PickDate(chosen) =>
      (if chosen.Some? then s.(showDatePicker := false, date := chosen.value)
       else s.(showDatePicker := false), Quiet)
    case PressBook => if BookEnabled(s) then HandleBook(s) else (s, Quiet)
    case ChooseMethod(m) => (s.(paymentMethod := MethodCode(m)), Quiet)
    case EnterPhone(text) => (s.(phone := text), Quiet)
    case CancelModal => (CancelPayment(s), Quiet)
    case PressPay(id) =>
      if s.showPaymentModal && PayEnabled(s) then PayThrough(s, id) else (s, Quiet)
  }

  function Run(s: State, actions: seq<Action>): State
    decreases |actions|
  {
    if actions == [] then s else Run(Step(s, actions[0]).0, actions[1..])
  }

  /** Nothing selected, or an entry of the catalog. */
  predicate CatalogChoice(x: Option<Spot>) {
    x.None? || x.value in Catalog
  }

  /** The displayed cost is the current duration times the default rate or a catalog rate. */
  ghost predicate PricedAtKnownRate(s: State) {
    exists x :: CatalogChoice(x) && s.totalCost == TotalCost(x, s.duration)
  }

  /** What holds of every form reachable from the mounted screen. */
  ghost predicate Reachable(s: State) {
    && s.duration >= 1
    && s.availableSpots == Catalog
    && CatalogChoice(s.selected)
    && !s.processing
    && (s.showPaymentModal ==> s.selected.Some?)
    && (s.paymentMethod == [] || s.paymentMethod == "mpesa" || s.paymentMethod == "airtel")
    && PricedAtKnownRate(s)
  }

  lemma InitialReachable(now: int)
    ensures Reachable(Initial(now))
  {
  }

  lemma StepKeepsReachable(s: State, a: Action)
    requires Reachable(s)
    ensures Reachable(Step(s, a).0)
  {
  }

  lemma {:induction false} RunKeepsReachable(s: State, actions: seq<Action>)
    requires Reachable(s)
    ensures Reachable(Run(s, actions))
    decreases |actions|
  {
    if actions != [] {
      StepKeepsReachable(s, actions[0]);
      RunKeepsReachable(Step(s, actions[0]).0, actions[1..]);
    }
  }

  /**
   Whatever the user does: the duration stays at least one hour, the listed
   spots are the unchanged catalog, and the cost shown is the duration times
   the default rate or a catalog rate.
   */
  lemma {:induction false} SessionInvariant(now: int, actions: seq<Action>)
    ensures Run(Initial(now), actions).duration >= 1
    ensures Run(Initial(now), actions).availableSpots == Catalog
    ensures forall i :: 0 <= i < |Run(Initial(now), actions).availableSpots| ==>
              WellFormedSpot(Run(Initial(now), actions).availableSpots[i])
    ensures PricedAtKnownRate(Run(Initial(now), actions))
  {
    InitialReachable(now);
    RunKeepsReachable(Initial(now), actions);
    CatalogWellFormed();
  }

  /** On a reachable form the book button never meets the duration error. */
  lemma BookNeverRejectsDuration(s: State)
    requires Reachable(s)
    ensures Step(s, PressBook).1 != ErrorAlert(BadDurationMessage)
    ensures BookEnabled(s) ==> Step(s, PressBook).0.showPaymentModal
  {
  }

  /**
   Paying from a reachable form always confirms: the record names the
   selected spot and carries the duration, displayed cost and method, and
   the form comes back cleared with the modal closed.
   */
  lemma PayFromReachableConfirms(s: State, id: string)
    requires Reachable(s) && s.showPaymentModal && PayEnabled(s)
    ensures Step(s, PressPay(id)).1
            == BookingConfirmed(Booking(id, s.selected.value.name, s.selected.value.address,
                                        s.duration, s.totalCost, s.date, s.paymentMethod))
    ensures var r := Step(s, PressPay(id)).0;
            r.selected.None? && r.location == [] && r.duration == 1 && r.paymentMethod == []
            && r.phone == [] && !r.showPaymentModal && r.city == s.city && r.date == s.date
  {
  }

  /**
   The displayed cost lags a selection: picking the 80-per-hour Westlands
   spot on a fresh form and paying for one hour confirms a cost of 60.
   */
  lemma SelectionCostLags(now: int)
    ensures var s1 := Step(Initial(now), PickSpot(1)).0;
            var s2 := Step(s1, PressBook).0;
            var s3 := Step(s2, ChooseMethod(MPesa)).0;
            var s4 := Step(s3, EnterPhone("0712345678")).0;
            && s1.selected == Some(Catalog[1])
            && s1.totalCost == 60 && TotalCost(s1.selected, s1.duration) == 80
            && Step(s4, PressPay("k3x9")).1.booking.totalCost == 60
  {
  }

  /** Any change of duration brings the cost back in line with the selection. */
  lemma DurationChangeResynchronises(s: State)
    ensures var r := Step(s, Plus).0; r.totalCost == TotalCost(r.selected, r.duration)
    ensures s.duration > 1 ==> var r := Step(s, Minus).0; r.totalCost == TotalCost(r.selected, r.duration)
  {
  }

  /**
   After a one-hour booking the reset does not rerun the cost effect: the
   cleared form still shows the last cost, here 80, not the default 60.
   */
  lemma OneHourResetKeepsStaleCost(now: int)
    ensures var s1 := Step(Step(Initial(now), PickSpot(1)).0, PickSpot(1)).0;
            var s2 := Step(Step(Step(s1, PressBook).0, ChooseMethod(AirtelMoney)).0, EnterPhone("07")).0;
            var s3 := Step(s2, PressPay("b1")).0;
            s1.totalCost == 80 && s3.selected.None? && s3.totalCost == 80
  {
  }
}
