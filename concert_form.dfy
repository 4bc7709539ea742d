/**
 * The administrators' concert form, used both to create a concert and, under a route id,
 * to edit one: loading the venues and the concert, field edits, the ordered checks with
 * the future-date rule, and the save that returns to the concert list.
 */
module ConcertForm {
  import opened Wrappers
  import opened Text
  import opened Validation
  import opened Records
  import opened ApiService
  import AppRoutes

  /**
   * `formData`. The date is the instant the `datetime-local` input denotes, None when it
   * is empty; the two selects hold their `parseInt` results, None for `NaN` or ''.
   */
  datatype ConcertFormData = ConcertFormData(
    title: string,
    description: string,
    date: Option<int>,
    statusId: Option<int>,
    venueId: Option<int>)

  /** A new concert starts blank, with status 2 ('on_sale'). */
  const NewConcertForm := ConcertFormData("", "", None, Some(2), None)

  /** One row of `concertStatuses`. */
  datatype ConcertStatus = ConcertStatus(id: int, caption: string, value: string)

  const ConcertStatuses: seq<ConcertStatus> := [
    ConcertStatus(1, "Programado", "scheduled"),
    ConcertStatus(2, "En Venta", "on_sale"),
    ConcertStatus(3, "Agotado", "sold_out"),
    ConcertStatus(4, "Completado", "completed"),
    ConcertStatus(5, "Cancelado", "canceled")
  ]

  /** One `handleChange` event; the selects arrive parsed, the text inputs raw. */
  datatype ConcertEdit =
    | TitleEdit(title: string)
    | DescriptionEdit(description: string)
    | DateEdit(date: Option<int>)
    | StatusEdit(statusId: Option<int>)
    | VenueEdit(venueId: Option<int>)

  function Edited(form: ConcertFormData, edit: ConcertEdit): ConcertFormData {
    match edit
    case TitleEdit(v) => form.(title := v)
    case DescriptionEdit(v) => form.(description := v)
    case DateEdit(v) => form.(date := v)
    case StatusEdit(v) => form.(statusId := v)
    case VenueEdit(v) => form.(venueId := v)
  }

  /** Each of the five fields takes the edit's value when the edit names it, and keeps its value otherwise. */
  lemma EditChangesOnlyItsField(form: ConcertFormData, edit: ConcertEdit)
    ensures Edited(form, edit).title == if edit.TitleEdit? then edit.title else form.title
    ensures Edited(form, edit).description == if edit.DescriptionEdit? then edit.description else form.description
    ensures Edited(form, edit).date == if edit.DateEdit? then edit.date else form.date
    ensures Edited(form, edit).statusId == if edit.StatusEdit? then edit.statusId else form.statusId
    ensures Edited(form, edit).venueId == if edit.VenueEdit? then edit.venueId else form.venueId
  {
  }

  /** `concert.venues?.[0]?.id || ''`: the first venue's id unless there is none or it is 0. */
  function FirstVenueId(venueIds: seq<int>): (v: Option<int>)
    ensures v.Some? <==> venueIds != [] && venueIds[0] != 0
    ensures v.Some? ==> v.value == venueIds[0]
  {
    if venueIds != [] && venueIds[0] != 0 then Some(venueIds[0]) else None
  }

  /** The form `fetchConcert` fills in from the stored concert. */
  function FormOfConcert(c: ConcertDetails): ConcertFormData {
    ConcertFormData(c.title, c.description, Some(c.date), Some(c.statusId), FirstVenueId(c.venueIds))
  }

  const TitleMessage := "El título es obligatorio"
  const DescriptionMessage := "La descripción es obligatoria"
  const DateMessage := "La fecha es obligatoria"
  const VenueMessage := "Debes seleccionar un venue"
  const PastDateMessage := "La fecha debe ser futura"
  const VenuesMessage := "No se pudieron cargar los venues"
  const LoadFallback := "Error al cargar el concierto"

  /** `Error al ${isEdit ? 'actualizar' : 'crear'} el concierto` */
  function SaveFallback(isEdit: bool): string {
    if isEdit then "Error al actualizar el concierto" else "Error al crear el concierto"
  }

  predicate TitleGiven(form: ConcertFormData) { !IsBlank(form.title) }
  predicate DescriptionGiven(form: ConcertFormData) { !IsBlank(form.description) }
  predicate DateGiven(form: ConcertFormData) { form.date.Some? }
  /** `!formData.venue_id` fails for '', `NaN` and 0. */
  predicate VenueChosen(form: ConcertFormData) { form.venueId.Some? && form.venueId.value != 0 }
  predicate DateInFuture(form: ConcertFormData, now: int) { form.date.Some? && form.date.value > now }

  function ConcertChecks(form: ConcertFormData, now: int): seq<Check> {
    [
      Check(TitleGiven(form), TitleMessage),
      Check(DescriptionGiven(form), DescriptionMessage),
      Check(DateGiven(form), DateMessage),
      Check(VenueChosen(form), VenueMessage),
      Check(DateInFuture(form, now), PastDateMessage)
    ]
  }

  /** The first failing check of `handleSubmit` at clock reading `now`, None when the form may be sent. */
  function ConcertFormFailure(form: ConcertFormData, now: int): (r: Option<string>)
    ensures r.None? <==>
      TitleGiven(form) && DescriptionGiven(form) && VenueChosen(form) && DateInFuture(form, now)
  {
    if !TitleGiven(form) then Some(TitleMessage)
    else if !DescriptionGiven(form) then Some(DescriptionMessage)
    else if !DateGiven(form) then Some(DateMessage)
    else if !VenueChosen(form) then Some(VenueMessage)
    else if !DateInFuture(form, now) then Some(PastDateMessage)
    else None
  }

  /**
   * The handler's early returns report the first failing check of the ordered list: title,
   * description, date, venue, then the future-date rule.
   */
  lemma ConcertChecksInOrder(form: ConcertFormData, now: int)
    ensures ConcertFormFailure(form, now) == FirstFailure(ConcertChecks(form, now))
  {
    var checks := ConcertChecks(form, now);
    if !TitleGiven(form) {
      FirstFailureAt(checks, 0);
    } else if !DescriptionGiven(form) {
      FirstFailureAt(checks, 1);
    } else if !DateGiven(form) {
      FirstFailureAt(checks, 2);
    } else if !VenueChosen(form) {
      FirstFailureAt(checks, 3);
    } else if !DateInFuture(form, now) {
      FirstFailureAt(checks, 4);
    } else {
      assert checks[0].passes && checks[1].passes && checks[2].passes && checks[3].passes && checks[4].passes;
    }
  }

  /** A form that passes today may be refused later: the date rule is relative to the clock. */
  lemma FutureDateIsRelative(form: ConcertFormData, now: int, later: int)
    requires ConcertFormFailure(form, now).None? && later >= form.date.value
    ensures ConcertFormFailure(form, later) == Some(PastDateMessage)
  {
  }

  /** `dataToSend`: every field of the form, the date as the instant it denotes. */
  datatype ConcertPayload = ConcertPayload(
    title: string,
    description: string,
    date: int,
    statusId: Option<int>,
    venueId: int)

  function PayloadOf(form: ConcertFormData): ConcertPayload
    requires form.date.Some? && form.venueId.Some?
  {
    ConcertPayload(form.title, form.description, form.date.value, form.statusId, form.venueId.value)
  }

  /** The payload copies the form as it stands; a payload that passed the checks is dated after `now`. */
  lemma PayloadCopiesForm(form: ConcertFormData, now: int)
    requires ConcertFormFailure(form, now).None?
    ensures PayloadOf(form).title == form.title && PayloadOf(form).description == form.description
    ensures Some(PayloadOf(form).date) == form.date && PayloadOf(form).date > now
    ensures PayloadOf(form).statusId == form.statusId
    ensures Some(PayloadOf(form).venueId) == form.venueId && PayloadOf(form).venueId != 0
  {
  }

  datatype ConcertRequest = UpdateConcert(id: string, payload: ConcertPayload) | CreateConcert(payload: ConcertPayload)

  function RequestFor(routeId: Option<string>, payload: ConcertPayload): (r: ConcertRequest)
    ensures r.UpdateConcert? <==> AppRoutes.IsEditRoute(routeId)
    ensures AppRoutes.IsEditRoute(routeId) ==> r == UpdateConcert(routeId.value, payload)
    ensures !AppRoutes.IsEditRoute(routeId) ==> r == CreateConcert(payload)
  {
    if AppRoutes.IsEditRoute(routeId) then UpdateConcert(routeId.value, payload) else CreateConcert(payload)
  }

  /** After a save the form returns to the concert list, which only administrators can open. */
  lemma SaveReturnsToConcertList()
    ensures AppRoutes.Resolve(AppRoutes.Segments("/admin/concerts"), true, true) == AppRoutes.Show(AppRoutes.AdminConcertsPage)
    ensures AppRoutes.Resolve(AppRoutes.Segments("/admin/concerts"), true, false) == AppRoutes.Redirect("/concerts")
  {
    AppRoutes.AdminListPages();
  }

  class ConcertFormPage {
    const routeId: Option<string>
    var loading: bool
    var venues: seq<Venue>
    var error: string
    var form: ConcertFormData
    var navigatedTo: Option<string>

    constructor (routeId: Option<string>)
      ensures this.routeId == routeId
      ensures !loading && venues == [] && error == "" && form == NewConcertForm && navigatedTo.None?
    {
      this.routeId := routeId;
      loading := false;
      venues := [];
      error := "";
      form := NewConcertForm;
      navigatedTo := None;
    }

    /** `fetchVenues`: the normalised list, or a fixed message whatever the failure. */
    method FetchVenues(reply: Result<ListResponse<Venue>, ErrorBody>)
      modifies this`venues, this`error
      ensures reply.Success? ==> venues == Listed(reply.value) && error == old(error)
      ensures reply.Failure? ==> venues == old(venues) && error == VenuesMessage
    {
      match reply {
        case Success(body) =>
          venues := Listed(body);
        case Failure(_) =>
          error := VenuesMessage;
      }
    }

    /** `fetchConcert`, which the page runs in edit mode. */
    method FetchConcert(reply: Result<ConcertDetails, ErrorBody>)
      modifies this`loading, this`form, this`error
      ensures !loading
      ensures reply.Success? ==> form == FormOfConcert(reply.value) && error == old(error)
      ensures reply.Failure? ==> form == old(form) && error == MessageOr(reply.error, LoadFallback)
    {
      loading := true;
      match reply {
        case Success(c) =>
          form := FormOfConcert(c);
        case Failure(e) =>
          error := MessageOr(e, LoadFallback);
      }
      loading := false;
    }

    /** `handleChange` */
    method HandleChange(edit: ConcertEdit)
      modifies this`form
      ensures form == Edited(old(form), edit)
    {
      form := Edited(form, edit);
    }

    /**
     * `handleSubmit` at clock reading `now`, given the settled reply of the save call.
     * Returns the save request made, None when a check failed.
     */
    method HandleSubmit(now: int, reply: Result<(), ErrorBody>) returns (request: Option<ConcertRequest>)
      modifies this`loading, this`error, this`navigatedTo
      ensures ConcertFormFailure(form, now).Some? ==>
        request.None? && error == ConcertFormFailure(form, now).value &&
        loading == old(loading) && navigatedTo == old(navigatedTo)
      ensures ConcertFormFailure(form, now).None? ==>
        request == Some(RequestFor(routeId, PayloadOf(form))) && !loading
      ensures ConcertFormFailure(form, now).None? && reply.Success? ==>
        navigatedTo == Some("/admin/concerts") && error == ""
      ensures ConcertFormFailure(form, now).None? && reply.Failure? ==>
        navigatedTo == old(navigatedTo) && error == MessageOr(reply.error, SaveFallback(AppRoutes.IsEditRoute(routeId)))
    {
      var failure := ConcertFormFailure(form, now);
      error := "";
      if failure.Some? {
        error := failure.value;
        return None;
      }
      loading := true;
      request := Some(RequestFor(routeId, PayloadOf(form)));
      match reply {
        case Success(_) =>
          navigatedTo := Some("/admin/concerts");
        case Failure(e) =>
          error := MessageOr(e, SaveFallback(AppRoutes.IsEditRoute(routeId)));
      }
      loading := false;
    }
  }
}
