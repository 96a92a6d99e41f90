/**
 The dashboard and the booking form read the same two catalog collections and
 judge the results differently; this module relates the two judgements.
 */
module CatalogAgreement {
  import opened Records
  import Booking
  import Dashboard

  /**
   Catalog reads the dashboard accepts (both succeed, both non-empty) give the
   booking form no error banner and non-empty selectors; reads that make the
   booking form show its banner (both fail) always raise the dashboard's seeding
   prompt, but one failed read raises the prompt while the form shows no banner.
   */
  lemma SeedingPromptCoversFormError(p: Booking.BookingPage, t: Fetch<Treatment>, d: Fetch<Dentist>)
    ensures !Dashboard.NeedsInitialization(t, d) ==>
              var p' := Booking.LoadFormData(p, Booking.Joined(t, d));
              p'.error == "" && |p'.treatments| > 0 && |p'.dentists| > 0
    ensures Booking.LoadFormData(p, Booking.Joined(t, d)).error != "" ==> Dashboard.NeedsInitialization(t, d)
    ensures t.FetchFailed? && d.Fetched? ==>
              Dashboard.NeedsInitialization(t, d) && Booking.LoadFormData(p, Booking.Joined(t, d)).error == ""
  {
  }
}
