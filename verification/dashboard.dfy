/**
 The dashboard: loading the user's appointments together with the catalog,
 deciding whether the catalog must be seeded first, the per-status counters,
 the id-to-name lookups, the cancel button, and the local update after a cancel.
 */
module Dashboard {
  import opened Wrappers
  import opened JsStrings
  import opened Records

  datatype DashboardPage = DashboardPage(
    appointments: seq<Appointment>,
    dentists: seq<Dentist>,
    treatments: seq<Treatment>,
    loading: bool,
    error: string,
    needsDataInitialization: bool)

  /** The page as mounted. */
  const InitialDashboard := DashboardPage([], [], [], true, "", false)

  const LoadError := "Error al cargar los datos. Por favor, intenta nuevamente."
  const CancelledNotice := "Cita cancelada exitosamente"
  const CancelFailedPrefix := "Error al cancelar la cita: "
  const UnexpectedCancelError := "Error inesperado al cancelar la cita"

  // ----- loading -----

  /** The catalog is unusable for booking: a read failed or came back empty. */
  function NeedsInitialization(treatments: Fetch<Treatment>, dentists: Fetch<Dentist>): (needed: bool)
    ensures !needed <==> treatments.Fetched? && |treatments.items| > 0 && dentists.Fetched? && |dentists.items| > 0
    ensures needed <==> treatments.ItemsOrEmpty() == [] || dentists.ItemsOrEmpty() == []
  {
    (treatments.FetchFailed? || |treatments.items| == 0) || (dentists.FetchFailed? || |dentists.items| == 0)
  }

  /** The three reads joined by `Promise.all`, or the join throwing. */
  datatype DashboardJoin =
    | Joined(appointments: Fetch<Appointment>, treatments: Fetch<Treatment>, dentists: Fetch<Dentist>)
    | JoinThrew

  /**
   `loadDashboardData` after the reads settle: each list is replaced only by a
   successful read (a failed read keeps what was shown before), the seeding
   prompt is raised exactly when the catalog is missing, and loading ends.
   */
  function LoadDashboardData(p: DashboardPage, j: DashboardJoin): (p': DashboardPage)
    ensures !p'.loading
    ensures p'.appointments == (if j.Joined? && j.appointments.Fetched? then j.appointments.items else p.appointments)
    ensures p'.treatments == (if j.Joined? && j.treatments.Fetched? then j.treatments.items else p.treatments)
    ensures p'.dentists == (if j.Joined? && j.dentists.Fetched? then j.dentists.items else p.dentists)
    ensures j.Joined? ==> p'.error == ""
    ensures j.Joined? ==> (p'.needsDataInitialization <==>
              !(j.treatments.Fetched? && |j.treatments.items| > 0 && j.dentists.Fetched? && |j.dentists.items| > 0))
    ensures j.JoinThrew? ==> p'.error == LoadError && p'.needsDataInitialization == p.needsDataInitialization
  {
    match j
    case JoinThrew => p.(error := LoadError, loading := false)
    case Joined(a, t, d) =>
      p.(appointments := if a.Fetched? then a.items else p.appointments,
         treatments := if t.Fetched? then t.items else p.treatments,
         dentists := if d.Fetched? then d.items else p.dentists,
         error := "",
         needsDataInitialization := NeedsInitialization(t, d),
         loading := false)
  }

  /** What the dashboard shows. */
  datatype DashboardScreen = Spinner | SeedingPrompt | Listing(appointments: seq<Appointment>, banner: string)

  function Screen(p: DashboardPage): (v: DashboardScreen)
    ensures v.Spinner? <==> p.loading
    ensures v.SeedingPrompt? <==> !p.loading && p.needsDataInitialization
    ensures v.Listing? ==> v.appointments == p.appointments && v.banner == p.error
  {
    if p.loading then Spinner
    else if p.needsDataInitialization then SeedingPrompt
    else Listing(p.appointments, p.error)
  }

  /** On mount the dashboard shows the spinner until the first load settles. */
  lemma InitiallyLoading()
    ensures Screen(InitialDashboard) == Spinner
  {
  }

  /**
   A catalog read that fails or comes back empty replaces the appointment list
   by the seeding prompt, even when the appointments themselves were read.
   */
  lemma CatalogFailureHidesAppointments(p: DashboardPage, a: Fetch<Appointment>, t: Fetch<Treatment>, d: Fetch<Dentist>)
    requires t.FetchFailed? || d.FetchFailed? || t.ItemsOrEmpty() == [] || d.ItemsOrEmpty() == []
    ensures Screen(LoadDashboardData(p, Joined(a, t, d))) == SeedingPrompt
  {
  }

  /** With a non-empty catalog, the list read is shown as read, without a banner. */
  lemma GoodCatalogShowsAppointments(p: DashboardPage, apts: seq<Appointment>, ts: seq<Treatment>, ds: seq<Dentist>)
    requires |ts| > 0 && |ds| > 0
    ensures Screen(LoadDashboardData(p, Joined(Fetched(apts), Fetched(ts), Fetched(ds)))) == Listing(apts, "")
  {
  }

  // ----- counters -----

  /** `appointments.filter(a => a.status === status).length`. */
  function CountStatus(apts: seq<Appointment>, status: string): (n: nat)
    ensures n <= |apts|
  {
    if apts == [] then 0
    else (if apts[0].status == status then 1 else 0) + CountStatus(apts[1..], status)
  }

  /** The three counters never add up to more than the list holds. */
  lemma {:induction false} CountersBounded(apts: seq<Appointment>)
    ensures CountStatus(apts, Reserved) + CountStatus(apts, Attended) + CountStatus(apts, Cancelled) <= |apts|
  {
    if apts != [] {
      CountersBounded(apts[1..]);
    }
  }

  // ----- names -----

  /** `getDentistName`: the first matching dentist's name, or the id itself. */
  function DentistName(dentists: seq<Dentist>, dentistId: string): (r: string)
    ensures (forall i :: 0 <= i < |dentists| ==> dentists[i].id != dentistId) ==> r == dentistId
    ensures forall i :: 0 <= i < |dentists| && dentists[i].id == dentistId
                        && (forall j :: 0 <= j < i ==> dentists[j].id != dentistId)
                        ==> r == (if Truthy(dentists[i].name) then dentists[i].name else dentistId)
  {
    NameById(dentists, (d: Dentist) => d.id, (d: Dentist) => d.name, dentistId)
  }

  /** `getTreatmentName`: the first matching treatment's name, or the id itself. */
  function TreatmentName(treatments: seq<Treatment>, treatmentId: string): (r: string)
    ensures (forall i :: 0 <= i < |treatments| ==> treatments[i].id != treatmentId) ==> r == treatmentId
    ensures forall i :: 0 <= i < |treatments| && treatments[i].id == treatmentId
                        && (forall j :: 0 <= j < i ==> treatments[j].id != treatmentId)
                        ==> r == (if Truthy(treatments[i].name) then treatments[i].name else treatmentId)
  {
    NameById(treatments, (t: Treatment) => t.id, (t: Treatment) => t.name, treatmentId)
  }

  // ----- cancelling -----

  /** The cancel button is shown on an appointment exactly when it is still reserved. */
  function CancelOffered(a: Appointment): (offered: bool)
    ensures offered ==> a.status != Cancelled && a.status != Attended
    ensures a.status == Reserved ==> offered
    ensures a.status != Reserved ==> !offered
  {
    a.status == Reserved
  }

  /** The ids that carry a cancel button, in list order. */
  function CancellableIds(apts: seq<Appointment>): (ids: seq<string>)
    ensures forall x :: x in ids <==> exists i :: 0 <= i < |apts| && apts[i].id == x && CancelOffered(apts[i])
  {
    if apts == [] then []
    else
      var rest := CancellableIds(apts[1..]);
      assert forall i :: 1 <= i < |apts| ==> apts[i] == apts[1..][i - 1];
      (if CancelOffered(apts[0]) then [apts[0].id] else []) + rest
  }

  /**
   The local update after a successful cancel (`prev.map(...)`): same length and
   order, every entry with the id becomes "cancelada", every other entry is untouched.
   */
  function CancelLocally(apts: seq<Appointment>, id: string): (r: seq<Appointment>)
    ensures |r| == |apts|
    ensures forall i :: 0 <= i < |apts| && apts[i].id == id ==> r[i] == apts[i].(status := Cancelled)
    ensures forall i :: 0 <= i < |apts| && apts[i].id != id ==> r[i] == apts[i]
  {
    if apts == [] then []
    else [if apts[0].id == id then apts[0].(status := Cancelled) else apts[0]] + CancelLocally(apts[1..], id)
  }

  /** Cancelling the same id twice leaves the list as cancelling it once. */
  lemma CancelIdempotent(apts: seq<Appointment>, id: string)
    ensures CancelLocally(CancelLocally(apts, id), id) == CancelLocally(apts, id)
  {
  }

  /** Reserved appointments with the given id. */
  function CountReservedWithId(apts: seq<Appointment>, id: string): nat {
    if apts == [] then 0
    else (if apts[0].id == id && apts[0].status == Reserved then 1 else 0) + CountReservedWithId(apts[1..], id)
  }

  /** The "Citas Programadas" counter drops by exactly the reserved entries with the cancelled id. */
  lemma {:induction false} CancelMovesReservedCount(apts: seq<Appointment>, id: string)
    ensures CountStatus(CancelLocally(apts, id), Reserved) + CountReservedWithId(apts, id) == CountStatus(apts, Reserved)
  {
    if apts != [] {
      CancelMovesReservedCount(apts[1..], id);
      assert CancelLocally(apts, id)[1..] == CancelLocally(apts[1..], id);
    }
  }

  /** After a cancel of `id`, no cancel button refers to `id`, and the other buttons stay. */
  lemma CancelRemovesButton(apts: seq<Appointment>, id: string)
    ensures id !in CancellableIds(CancelLocally(apts, id))
    ensures forall x :: x != id ==> (x in CancellableIds(CancelLocally(apts, id)) <==> x in CancellableIds(apts))
  {
    var r := CancelLocally(apts, id);
    forall x | x != id
      ensures x in CancellableIds(r) <==> x in CancellableIds(apts)
    {
      if x in CancellableIds(apts) {
        var i :| 0 <= i < |apts| && apts[i].id == x && CancelOffered(apts[i]);
        assert r[i] == apts[i];
      }
    }
  }

  /** Outcome of the cancel call. */
  datatype CancelOutcome = CancelOk | CancelFailed(message: string) | CancelThrew

  /** What a cancel click leaves: the list, whether the store was called, and the alert shown. */
  datatype CancelStep = CancelStep(appointments: seq<Appointment>, called: bool, alert: Option<string>)

  /**
   `handleCancelAppointment`: nothing happens unless the user confirms; then the
   store is asked to cancel, and only a success touches the local list.
   */
  function HandleCancel(apts: seq<Appointment>, id: string, confirmed: bool, outcome: CancelOutcome): (s: CancelStep)
    ensures !confirmed ==> s == CancelStep(apts, false, None)
    ensures confirmed ==> s.called && s.alert.Some?
    ensures confirmed && outcome.CancelOk? ==> s.appointments == CancelLocally(apts, id) && s.alert == Some(CancelledNotice)
    ensures confirmed && outcome.CancelFailed? ==> s.appointments == apts && s.alert == Some(CancelFailedPrefix + outcome.message)
    ensures confirmed && outcome.CancelThrew? ==> s.appointments == apts && s.alert == Some(UnexpectedCancelError)
  {
    if !confirmed then CancelStep(apts, false, None)
    else match outcome
      case CancelOk => CancelStep(CancelLocally(apts, id), true, Some(CancelledNotice))
      case CancelFailed(message) => CancelStep(apts, true, Some(CancelFailedPrefix + message))
      case CancelThrew => CancelStep(apts, true, Some(UnexpectedCancelError))
  }
}
