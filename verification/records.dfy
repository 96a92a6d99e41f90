/**
 The records the pages exchange with the document store, and the two read-only
 helpers the pages apply to catalog lists: `Array.prototype.find` and the
 "name of the record with this id, or the id itself" lookup.
 */
module Records {
  import opened Wrappers
  import opened JsStrings

  /** A calendar day, counted in days since 1970-01-01 in the browser's time zone. */
  type Day = int

  datatype Treatment = Treatment(id: string, name: string, duration: string, price: Option<int>)

  datatype Dentist = Dentist(id: string, name: string, specialty: string, available: bool)

  /** The status strings the application writes and compares against. */
  const Reserved := "reservada"
  const Attended := "atendida"
  const Cancelled := "cancelada"

  /** The document the booking form writes into the appointments collection. */
  datatype AppointmentDraft = AppointmentDraft(
    userId: string,
    treatment: string,
    dentist: string,
    date: Day,
    time: string,
    status: string,
    patientName: string,
    patientEmail: string)

  /** An appointment as listed back from the store, with the id the store assigned. */
  datatype Appointment = Appointment(
    id: string,
    userId: string,
    treatment: string,
    dentist: string,
    date: Day,
    time: string,
    status: string,
    patientName: string,
    patientEmail: string)

  /**
   What one store read reports: `{success: true, items}` or
   `{success: false, error}` (the wrapper also returns an empty list then).
   */
  datatype Fetch<T> = Fetched(items: seq<T>) | FetchFailed(message: string) {
    /** The list a caller sees when it reads the items field whatever the outcome. */
    function ItemsOrEmpty(): seq<T> {
      if Fetched? then items else []
    }
  }

  /** `xs.find(p)` as a position: the first index whose element satisfies `p`. */
  function FindIndex<T>(xs: seq<T>, p: T -> bool): (r: Option<nat>)
    ensures r.Some? ==> r.value < |xs| && p(xs[r.value])
    ensures r.Some? ==> forall j :: 0 <= j < r.value ==> !p(xs[j])
    ensures r.None? ==> forall j :: 0 <= j < |xs| ==> !p(xs[j])
  {
    if xs == [] then None
    else if p(xs[0]) then Some(0)
    else match FindIndex(xs[1..], p)
      case None => None
      case Some(k) => Some(k + 1)
  }

  /**
   `xs.find(x => x.id === id)?.name || id`: the name of the first record with
   that id when the name is non-empty, otherwise the id itself (also when no
   record has the id, or when the first such record has an empty name).
   */
  function NameById<T>(xs: seq<T>, idOf: T -> string, nameOf: T -> string, id: string): (r: string)
    ensures forall i :: 0 <= i < |xs| && idOf(xs[i]) == id && (forall j :: 0 <= j < i ==> idOf(xs[j]) != id)
                        ==> r == (if Truthy(nameOf(xs[i])) then nameOf(xs[i]) else id)
    ensures (forall i :: 0 <= i < |xs| ==> idOf(xs[i]) != id) ==> r == id
  {
    match FindIndex(xs, x => idOf(x) == id)
    case None => id
    case Some(i) => Or(Some(nameOf(xs[i])), id)
  }
}
