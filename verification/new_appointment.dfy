/**
 The booking form: its state, the edits the selectors make, the date picker's
 acceptance rule, the dentist options, the submit button's enabled state, and
 what a submit does. The create call and the catalog reads are inputs (their
 outcomes), not modelled I/O.
 */
module Booking {
  import opened Wrappers
  import opened JsStrings
  import opened Records
  import opened Calendar
  import opened Session
  import TimeSlots

  /** The four form fields; an unselected string field is "", an unselected date is None (null). */
  datatype Form = Form(treatment: string, dentist: string, date: Option<Day>, time: string)

  const EmptyForm := Form("", "", None, "")

  datatype BookingPage = BookingPage(
    form: Form,
    treatments: seq<Treatment>,
    dentists: seq<Dentist>,
    isLoading: bool,
    dataLoading: bool,
    error: string)

  /** The page as mounted, before the catalog has loaded. */
  const InitialBookingPage := BookingPage(EmptyForm, [], [], false, true, "")

  const LoadError := "Error al cargar los datos. Por favor, intenta nuevamente."
  const FillAllFields := "Por favor, completa todos los campos"
  const BookingFailedPrefix := "Error al reservar la cita: "
  const UnexpectedBookingError := "Error inesperado al reservar la cita. Por favor, intenta nuevamente."

  /** How far ahead the date picker reaches. */
  const DaysAhead := 90

  /** On the page as mounted the submit button is disabled. */
  lemma InitiallyDisabled()
    ensures SubmitDisabled(InitialBookingPage)
    ensures SubmitDisabled(LoadFormData(InitialBookingPage, Joined(Fetched([]), Fetched([]))))
  {
  }

  // ----- date picker -----

  /**
   The date picker offers day `d` when it lies between today (`minDate`) and
   today plus 90 days (`maxDate`), both included, and is not a Sunday (`filterDate`).
   */
  function DateSelectable(today: Day, d: Day): (ok: bool)
    ensures d < today || d > today + DaysAhead ==> !ok
    ensures Weekday(d) == Sunday ==> !ok
    ensures today <= d <= today + DaysAhead && Weekday(d) != Sunday ==> ok
  {
    MinDate(today) <= d <= MaxDate(today) && FilterDate(d)
  }

  /** `minDate`: the picker starts at today. */
  function MinDate(today: Day): Day {
    today
  }

  /** `maxDate`: the picker ends 90 days after today. */
  function MaxDate(today: Day): Day {
    today + DaysAhead
  }

  /** `filterDate`: every day except Sundays. */
  function FilterDate(d: Day): bool {
    Weekday(d) != Sunday
  }

  /** Number of days in `[from, from + n)` the picker offers. */
  function CountSelectable(today: Day, from: Day, n: nat): nat
    decreases n
  {
    if n == 0 then 0
    else (if DateSelectable(today, from) then 1 else 0) + CountSelectable(today, from + 1, n - 1)
  }

  /** Inside the window, the picker offers exactly the days that are not Sundays. */
  lemma {:induction false} SelectableInsideWindow(today: Day, from: Day, n: nat)
    requires today <= from && from + n <= today + DaysAhead + 1
    ensures CountSelectable(today, from, n) == CountNonSundays(from, n)
    decreases n
  {
    if n > 0 {
      SelectableInsideWindow(today, from + 1, n - 1);
    }
  }

  /**
   The picker offers no day outside `[today, today + 90]` and, since those 91
   days are exactly 13 weeks, exactly 78 days inside it, whatever today is.
   */
  lemma PickerOffers78Days(today: Day)
    ensures forall d :: DateSelectable(today, d) ==> today <= d < today + DaysAhead + 1
    ensures CountSelectable(today, today, DaysAhead + 1) == 78
  {
    SelectableInsideWindow(today, today, DaysAhead + 1);
    NonSundaysInWeeks(today, 13);
  }

  // ----- dentist options -----

  /** The dentist selector's options: `dentists.filter(d => d.available)`. */
  function AvailableDentists(ds: seq<Dentist>): (r: seq<Dentist>)
    ensures forall d :: d in r <==> d in ds && d.available
    ensures |r| <= |ds|
  {
    if ds == [] then []
    else (if ds[0].available then [ds[0]] else []) + AvailableDentists(ds[1..])
  }

  /**
   Filtering distributes over concatenation: together with its effect on one
   dentist, this fixes the options as the available dentists in their original order.
   */
  lemma {:induction false} AvailableDentistsKeepsOrder(a: seq<Dentist>, b: seq<Dentist>)
    ensures AvailableDentists(a + b) == AvailableDentists(a) + AvailableDentists(b)
    decreases |a|
  {
    if a == [] {
      assert a + b == b;
    } else {
      assert (a + b)[1..] == a[1..] + b;
      AvailableDentistsKeepsOrder(a[1..], b);
    }
  }

  /** Filtering again changes nothing. */
  lemma {:induction false} AvailableDentistsIdempotent(ds: seq<Dentist>)
    ensures AvailableDentists(AvailableDentists(ds)) == AvailableDentists(ds)
    decreases |ds|
  {
    if ds != [] {
      var head := if ds[0].available then [ds[0]] else [];
      AvailableDentistsKeepsOrder(head, AvailableDentists(ds[1..]));
      assert AvailableDentists(head) == head by {
        if ds[0].available {
          assert head[1..] == [];
        }
      }
      AvailableDentistsIdempotent(ds[1..]);
    }
  }

  /** When every dentist is available, all are offered, unchanged and in order. */
  lemma {:induction false} AllAvailableAllOffered(ds: seq<Dentist>)
    requires forall i :: 0 <= i < |ds| ==> ds[i].available
    ensures AvailableDentists(ds) == ds
    decreases |ds|
  {
    if ds != [] {
      AllAvailableAllOffered(ds[1..]);
    }
  }

  // ----- catalog load -----

  /** The two catalog reads joined by `Promise.all`, or the join throwing. */
  datatype CatalogJoin = Joined(treatments: Fetch<Treatment>, dentists: Fetch<Dentist>) | JoinThrew

  /**
   `loadFormData` after the reads settle: each list is replaced only by a
   successful read; the error banner appears only when both reads failed (or the
   join threw); loading ends. A single failure keeps the page usable.
   */
  function LoadFormData(p: BookingPage, j: CatalogJoin): (p': BookingPage)
    ensures !p'.dataLoading
    ensures p'.form == p.form && p'.isLoading == p.isLoading
    ensures p'.error == LoadError
            <==> j.JoinThrew? || (j.treatments.FetchFailed? && j.dentists.FetchFailed?)
    ensures p'.error != LoadError ==> p'.error == ""
    ensures p'.treatments == (if j.Joined? && j.treatments.Fetched? then j.treatments.items else p.treatments)
    ensures p'.dentists == (if j.Joined? && j.dentists.Fetched? then j.dentists.items else p.dentists)
  {
    match j
    case JoinThrew =>
      p.(error := LoadError, dataLoading := false)
    case Joined(t, d) =>
      var treatments := if t.Fetched? then t.items else p.treatments;
      var dentists := if d.Fetched? then d.items else p.dentists;
      var error := if t.FetchFailed? && d.FetchFailed? then LoadError else "";
      p.(treatments := treatments, dentists := dentists, error := error, dataLoading := false)
  }

  // ----- editing -----

  /** A selection made in one of the four inputs. */
  datatype Edit =
    | TreatmentChosen(treatment: string)
    | DentistChosen(dentist: string)
    | DateChosen(date: Option<Day>)
    | TimeChosen(time: string)

  /** `handleChange(field, value)`: sets that field alone and clears the error banner. */
  function HandleChange(p: BookingPage, e: Edit): (p': BookingPage)
    ensures p'.error == ""
    ensures p'.treatments == p.treatments && p'.dentists == p.dentists
    ensures p'.isLoading == p.isLoading && p'.dataLoading == p.dataLoading
    ensures p'.form.treatment == (if e.TreatmentChosen? then e.treatment else p.form.treatment)
    ensures p'.form.dentist == (if e.DentistChosen? then e.dentist else p.form.dentist)
    ensures p'.form.date == (if e.DateChosen? then e.date else p.form.date)
    ensures p'.form.time == (if e.TimeChosen? then e.time else p.form.time)
  {
    var f := p.form;
    var f' := match e
      case TreatmentChosen(v) => f.(treatment := v)
      case DentistChosen(v) => f.(dentist := v)
      case DateChosen(v) => f.(date := v)
      case TimeChosen(v) => f.(time := v);
    p.(form := f', error := "")
  }

  // ----- submitting -----

  /** All four fields are truthy: the strings non-empty and a date chosen. */
  function Complete(f: Form): (ok: bool)
    ensures ok ==> f.date.Some?
    ensures f.treatment == "" || f.dentist == "" || f.date.None? || f.time == "" ==> !ok
    ensures f.treatment != "" && f.dentist != "" && f.date.Some? && f.time != "" ==> ok
  {
    Truthy(f.treatment) && Truthy(f.dentist) && f.date.Some? && Truthy(f.time)
  }

  /** The submit button is disabled while a submit runs or while a field is empty. */
  function SubmitDisabled(p: BookingPage): (disabled: bool)
    ensures p.isLoading ==> disabled
    ensures p.form.treatment == "" || p.form.dentist == "" || p.form.date.None? || p.form.time == "" ==> disabled
    ensures !disabled ==> Complete(p.form) && !p.isLoading
  {
    p.isLoading || !Complete(p.form)
  }

  /** The document written for a booking. */
  function Draft(user: User, f: Form): AppointmentDraft
    requires f.date.Some?
  {
    AppointmentDraft(user.uid, f.treatment, f.dentist, f.date.value, f.time, Reserved, user.name, user.email)
  }

  /** Outcome of the create call. */
  datatype CreateOutcome = Created(id: string) | CreateFailed(message: string) | CreateThrew

  const BookedNotice := "¡Cita reservada exitosamente!"

  /** What a submit leaves behind: the page, the document sent (if any), the alert shown, and whether it navigates away. */
  datatype SubmitStep = SubmitStep(page: BookingPage, request: Option<AppointmentDraft>, alert: Option<string>, goToDashboard: bool)

  /**
   `handleSubmit`: an incomplete form is refused locally without a create call;
   a complete one sends a "reservada" appointment owned by the signed-in user,
   and the page either navigates to the dashboard or shows why the booking failed.
   */
  function HandleSubmit(p: BookingPage, user: User, outcome: CreateOutcome): (s: SubmitStep)
    ensures !s.page.isLoading
    ensures s.page.form == p.form && s.page.treatments == p.treatments && s.page.dentists == p.dentists
    ensures s.page.dataLoading == p.dataLoading
    ensures s.request.Some? <==> Complete(p.form)
    ensures !Complete(p.form) ==> s.page.error == FillAllFields && !s.goToDashboard
    ensures s.request.Some? ==>
              && s.request.value.status == Reserved
              && s.request.value.userId == user.uid
              && s.request.value.treatment == p.form.treatment
              && s.request.value.dentist == p.form.dentist
              && Some(s.request.value.date) == p.form.date
              && s.request.value.time == p.form.time
              && s.request.value.patientName == user.name
              && s.request.value.patientEmail == user.email
    ensures s.goToDashboard <==> Complete(p.form) && outcome.Created?
    ensures s.alert.Some? <==> s.goToDashboard
    ensures s.alert.Some? ==> s.alert.value == BookedNotice
    ensures Complete(p.form) && outcome.Created? ==> s.page.error == ""
    ensures Complete(p.form) && outcome.CreateFailed? ==> s.page.error == BookingFailedPrefix + outcome.message
    ensures Complete(p.form) && outcome.CreateThrew? ==> s.page.error == UnexpectedBookingError
  {
    if !Complete(p.form) then
      SubmitStep(p.(error := FillAllFields, isLoading := false), None, None, false)
    else
      var request := Draft(user, p.form);
      match outcome
      case Created(_) => SubmitStep(p.(error := "", isLoading := false), Some(request), Some(BookedNotice), true)
      case CreateFailed(message) =>
        SubmitStep(p.(error := BookingFailedPrefix + message, isLoading := false), Some(request), None, false)
      case CreateThrew => SubmitStep(p.(error := UnexpectedBookingError, isLoading := false), Some(request), None, false)
  }

  /** Whenever the button is enabled, submitting sends a create request. */
  lemma EnabledSubmitSendsRequest(p: BookingPage, user: User, outcome: CreateOutcome)
    requires !SubmitDisabled(p)
    ensures HandleSubmit(p, user, outcome).request.Some?
  {
  }

  /**
   The submit handler does not re-check the date window, the weekday or the
   time list: any non-empty values pass, so those rules hold only for values
   that came through the picker and the time selector.
   */
  lemma SubmitTrustsTheInputs(p: BookingPage, user: User, outcome: CreateOutcome)
    requires Complete(p.form)
    requires Weekday(p.form.date.value) == Sunday && p.form.time !in TimeSlots.Slots
    ensures HandleSubmit(p, user, outcome).request.Some?
  {
  }

  /**
   Filling every field through the inputs, from the page as loaded, enables the
   submit button; the resulting request carries exactly the chosen values.
   */
  lemma FillingTheFormEnablesSubmit(p: BookingPage, t: string, d: string, day: Day, time: string, user: User, outcome: CreateOutcome)
    requires !p.isLoading && t != "" && d != "" && time in TimeSlots.Slots
    ensures var p' := HandleChange(HandleChange(HandleChange(HandleChange(p,
                        TreatmentChosen(t)), DentistChosen(d)), DateChosen(Some(day))), TimeChosen(time));
            && !SubmitDisabled(p')
            && HandleSubmit(p', user, outcome).request == Some(AppointmentDraft(user.uid, t, d, day, time, Reserved, user.name, user.email))
  {
    TimeSlots.SlotsParse(time);
  }
}
