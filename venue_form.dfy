/**
 * The administrators' venue form, used both to create a venue and, under a route id, to
 * edit one: loading the venue, field edits, the four required fields and the save that
 * returns to the venue list.
 */
module VenueForm {
  import opened Wrappers
  import opened Text
  import opened Validation
  import opened Records
  import opened ApiService
  import AppRoutes

  /** A new venue starts blank, in 'Guatemala'. */
  const NewVenueForm := Venue("", "", "", "Guatemala")

  datatype VenueField = Name | Address | City | Country

  function FieldValue(form: Venue, field: VenueField): string {
    match field
    case Name => form.name
    case Address => form.address
    case City => form.city
    case Country => form.country
  }

  /** `handleChange`: `[name]: value`. */
  function Edited(form: Venue, field: VenueField, value: string): (r: Venue)
    ensures FieldValue(r, field) == value
    ensures forall other :: other != field ==> FieldValue(r, other) == FieldValue(form, other)
  {
    match field
    case Name => form.(name := value)
    case Address => form.(address := value)
    case City => form.(city := value)
    case Country => form.(country := value)
  }

  /** Setting a field to the value it holds changes nothing; two edits of one field keep the last. */
  lemma EditsOfOneField(form: Venue, field: VenueField, first: string, second: string)
    ensures Edited(form, field, FieldValue(form, field)) == form
    ensures Edited(Edited(form, field, first), field, second) == Edited(form, field, second)
  {
  }

  const NameMessage := "El nombre es obligatorio"
  const AddressMessage := "La dirección es obligatoria"
  const CityMessage := "La ciudad es obligatoria"
  const CountryMessage := "El país es obligatorio"
  const LoadFallback := "Error al cargar el venue"

  /** `Error al ${isEdit ? 'actualizar' : 'crear'} el venue` */
  function SaveFallback(isEdit: bool): string {
    if isEdit then "Error al actualizar el venue" else "Error al crear el venue"
  }

  function VenueChecks(form: Venue): seq<Check> {
    [
      Check(!IsBlank(form.name), NameMessage),
      Check(!IsBlank(form.address), AddressMessage),
      Check(!IsBlank(form.city), CityMessage),
      Check(!IsBlank(form.country), CountryMessage)
    ]
  }

  /** The first failing check of `handleSubmit`, None when the form may be sent. */
  function VenueFormFailure(form: Venue): (r: Option<string>)
    ensures r.None? <==> forall field :: !IsBlank(FieldValue(form, field))
  {
    var checks := VenueChecks(form);
    assert (forall i :: 0 <= i < |checks| ==> checks[i].passes) <==>
      checks[0].passes && checks[1].passes && checks[2].passes && checks[3].passes;
    assert (forall field :: !IsBlank(FieldValue(form, field))) <==>
      !IsBlank(FieldValue(form, Name)) && !IsBlank(FieldValue(form, Address)) &&
      !IsBlank(FieldValue(form, City)) && !IsBlank(FieldValue(form, Country));
    FirstFailure(checks)
  }

  /** Name, address, city, then country; only the first blank field is told. */
  lemma VenueChecksInOrder(form: Venue)
    ensures IsBlank(form.name) ==> VenueFormFailure(form) == Some(NameMessage)
    ensures !IsBlank(form.name) && IsBlank(form.address) ==> VenueFormFailure(form) == Some(AddressMessage)
    ensures !IsBlank(form.name) && !IsBlank(form.address) && IsBlank(form.city) ==>
      VenueFormFailure(form) == Some(CityMessage)
    ensures !IsBlank(form.name) && !IsBlank(form.address) && !IsBlank(form.city) && IsBlank(form.country) ==>
      VenueFormFailure(form) == Some(CountryMessage)
  {
    var checks := VenueChecks(form);
    if IsBlank(form.name) {
      FirstFailureAt(checks, 0);
    } else if IsBlank(form.address) {
      FirstFailureAt(checks, 1);
    } else if IsBlank(form.city) {
      FirstFailureAt(checks, 2);
    } else if IsBlank(form.country) {
      FirstFailureAt(checks, 3);
    }
  }

  /** The new form is refused at its name, and its country default already passes. */
  lemma NewFormNeedsName()
    ensures VenueFormFailure(NewVenueForm) == Some(NameMessage)
    ensures !IsBlank(NewVenueForm.country)
  {
    VenueChecksInOrder(NewVenueForm);
    assert !IsSpace(NewVenueForm.country[0]);
  }

  /** The save call: the form is sent as it stands, untrimmed. */
  datatype VenueRequest = UpdateVenue(id: string, payload: Venue) | CreateVenue(payload: Venue)

  function RequestFor(routeId: Option<string>, form: Venue): (r: VenueRequest)
    ensures r.UpdateVenue? <==> AppRoutes.IsEditRoute(routeId)
    ensures AppRoutes.IsEditRoute(routeId) ==> r == UpdateVenue(routeId.value, form)
    ensures !AppRoutes.IsEditRoute(routeId) ==> r == CreateVenue(form)
  {
    if AppRoutes.IsEditRoute(routeId) then UpdateVenue(routeId.value, form) else CreateVenue(form)
  }

  /** After a save the form returns to the venue list, which only administrators can open. */
  lemma SaveReturnsToVenueList()
    ensures AppRoutes.Resolve(AppRoutes.Segments("/admin/venues"), true, true) == AppRoutes.Show(AppRoutes.AdminVenuesPage)
    ensures AppRoutes.Resolve(AppRoutes.Segments("/admin/venues"), true, false) == AppRoutes.Redirect("/concerts")
  {
    AppRoutes.AdminListPages();
  }

  class VenueFormPage {
    const routeId: Option<string>
    var loading: bool
    var error: string
    var form: Venue
    var navigatedTo: Option<string>

    constructor (routeId: Option<string>)
      ensures this.routeId == routeId
      ensures !loading && error == "" && form == NewVenueForm && navigatedTo.None?
    {
      this.routeId := routeId;
      loading := false;
      error := "";
      form := NewVenueForm;
      navigatedTo := None;
    }

    /** `fetchVenue`, which the page runs in edit mode. */
    method FetchVenue(reply: Result<Venue, ErrorBody>)
      modifies this`loading, this`form, this`error
      ensures !loading
      ensures reply.Success? ==> form == reply.value && error == old(error)
      ensures reply.Failure? ==> form == old(form) && error == MessageOr(reply.error, LoadFallback)
    {
      loading := true;
      match reply {
        case Success(v) =>
          form := Venue(v.name, v.address, v.city, v.country);
        case Failure(e) =>
          error := MessageOr(e, LoadFallback);
      }
      loading := false;
    }

    /** `handleChange` */
    method HandleChange(field: VenueField, value: string)
      modifies this`form
      ensures form == Edited(old(form), field, value)
    {
      form := Edited(form, field, value);
    }

    /**
     * `handleSubmit`, given the settled reply of the save call. Returns the save request
     * made, None when a check failed.
     */
    method HandleSubmit(reply: Result<Venue, ErrorBody>) returns (request: Option<VenueRequest>)
      modifies this`loading, this`error, this`navigatedTo
      ensures VenueFormFailure(form).Some? ==>
        request.None? && error == VenueFormFailure(form).value &&
        loading == old(loading) && navigatedTo == old(navigatedTo)
      ensures VenueFormFailure(form).None? ==>
        request == Some(RequestFor(routeId, form)) && !loading
      ensures VenueFormFailure(form).None? && reply.Success? ==>
        navigatedTo == Some("/admin/venues") && error == ""
      ensures VenueFormFailure(form).None? && reply.Failure? ==>
        navigatedTo == old(navigatedTo) && error == MessageOr(reply.error, SaveFallback(AppRoutes.IsEditRoute(routeId)))
    {
      var failure := VenueFormFailure(form);
      error := "";
      if failure.Some? {
        error := failure.value;
        return None;
      }
      loading := true;
      request := Some(RequestFor(routeId, form));
      match reply {
        case Success(_) =>
          navigatedTo := Some("/admin/venues");
        case Failure(e) =>
          error := MessageOr(e, SaveFallback(AppRoutes.IsEditRoute(routeId)));
      }
      loading := false;
    }
  }
}
