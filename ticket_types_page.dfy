/**
 * The administrators' ticket-type page of one concert: the list with its totals, the
 * create/edit modal with its ordered checks and payload, and delete by id.
 */
module TicketTypes {
  import opened Wrappers
  import opened Text
  import opened Seqs
  import opened Validation
  import opened Records
  import opened ApiService

  /**
   * The modal's form. The number inputs and the section select hold parsed values;
   * None is the empty input ('').
   */
  datatype TicketForm = TicketForm(name: string, price: Option<real>, available: Option<int>, sectionId: Option<int>)

  const EmptyTicketForm := TicketForm("", None, None, None)

  /** One `handleChange` event: the input it comes from and its new value. */
  datatype TicketEdit =
    | NameEdit(name: string)
    | PriceEdit(price: Option<real>)
    | AvailableEdit(available: Option<int>)
    | SectionEdit(sectionId: Option<int>)

  function Edited(form: TicketForm, edit: TicketEdit): TicketForm {
    match edit
    case NameEdit(v) => form.(name := v)
    case PriceEdit(v) => form.(price := v)
    case AvailableEdit(v) => form.(available := v)
    case SectionEdit(v) => form.(sectionId := v)
  }

  /** Each of the four inputs takes the edit's value when the edit names it, and keeps its value otherwise. */
  lemma EditChangesOnlyItsInput(form: TicketForm, edit: TicketEdit)
    ensures Edited(form, edit).name == if edit.NameEdit? then edit.name else form.name
    ensures Edited(form, edit).price == if edit.PriceEdit? then edit.price else form.price
    ensures Edited(form, edit).available == if edit.AvailableEdit? then edit.available else form.available
    ensures Edited(form, edit).sectionId == if edit.SectionEdit? then edit.sectionId else form.sectionId
  {
  }

  /** The form `handleOpenModal(ticket)` fills in; a falsy `section_id` shows as no section. */
  function FormOf(ticket: TicketType): TicketForm {
    TicketForm(ticket.name, Some(ticket.price), Some(ticket.available),
      if ticket.sectionId.Some? && ticket.sectionId.value != 0 then ticket.sectionId else None)
  }

  const NameMessage := "El nombre es obligatorio"
  const PriceMessage := "El precio debe ser mayor a 0"
  const AvailableMessage := "La cantidad disponible debe ser mayor a 0"
  const SaveFallback := "Error al guardar el tipo de ticket"
  const LoadFallback := "Error al cargar datos"
  const DeleteFallback := "Error al eliminar el tipo de ticket"

  predicate NameGiven(form: TicketForm) { !IsBlank(form.name) }
  predicate PricePositive(form: TicketForm) { form.price.Some? && form.price.value > 0.0 }
  predicate AvailablePositive(form: TicketForm) { form.available.Some? && form.available.value > 0 }

  function TicketChecks(form: TicketForm): seq<Check> {
    [
      Check(NameGiven(form), NameMessage),
      Check(PricePositive(form), PriceMessage),
      Check(AvailablePositive(form), AvailableMessage)
    ]
  }

  /** The first failing check of `handleSubmit`, None when the form may be sent. */
  function TicketFormFailure(form: TicketForm): (r: Option<string>)
    ensures r.None? <==>
      !IsBlank(form.name) && form.price.Some? && form.price.value > 0.0 &&
      form.available.Some? && form.available.value > 0
  {
    var checks := TicketChecks(form);
    assert (forall i :: 0 <= i < |checks| ==> checks[i].passes) <==>
      NameGiven(form) && PricePositive(form) && AvailablePositive(form) by {
      assert checks[0].passes == NameGiven(form);
      assert checks[1].passes == PricePositive(form);
      assert checks[2].passes == AvailablePositive(form);
    }
    FirstFailure(checks)
  }

  /** The checks run in order: name, then price, then quantity; only the first failure is told. */
  lemma TicketChecksInOrder(form: TicketForm)
    ensures IsBlank(form.name) ==> TicketFormFailure(form) == Some(NameMessage)
    ensures !IsBlank(form.name) && !(form.price.Some? && form.price.value > 0.0) ==>
      TicketFormFailure(form) == Some(PriceMessage)
    ensures
      && !IsBlank(form.name) && form.price.Some? && form.price.value > 0.0
      && !(form.available.Some? && form.available.value > 0)
      ==> TicketFormFailure(form) == Some(AvailableMessage)
  {
    var checks := TicketChecks(form);
    if IsBlank(form.name) {
      FirstFailureAt(checks, 0);
    } else if !(form.price.Some? && form.price.value > 0.0) {
      FirstFailureAt(checks, 1);
    } else if !(form.available.Some? && form.available.value > 0) {
      FirstFailureAt(checks, 2);
    }
  }

  /** `dataToSend`: `section_id` is null when no section is chosen. */
  datatype TicketPayload = TicketPayload(name: string, price: real, available: int, sectionId: Option<int>)

  function PayloadOf(form: TicketForm): TicketPayload
    requires TicketFormFailure(form).None?
  {
    TicketPayload(form.name, form.price.value, form.available.value, form.sectionId)
  }

  /** A payload that passed the checks has a positive price and quantity, and carries the untrimmed name. */
  lemma PayloadIsPositive(form: TicketForm)
    requires TicketFormFailure(form).None?
    ensures PayloadOf(form).price > 0.0 && PayloadOf(form).available > 0
    ensures PayloadOf(form).name == form.name && !IsBlank(PayloadOf(form).name)
    ensures PayloadOf(form).sectionId == form.sectionId
  {
  }

  /** The service call a valid submit makes. */
  datatype TicketRequest =
    | UpdateTicketType(ticketId: int, payload: TicketPayload)
    | CreateTicketType(concertId: string, payload: TicketPayload)

  function RequestFor(editing: Option<TicketType>, concertId: string, payload: TicketPayload): (r: TicketRequest)
    ensures r.UpdateTicketType? <==> editing.Some?
    ensures editing.Some? ==> r == UpdateTicketType(editing.value.id, payload)
    ensures editing.None? ==> r == CreateTicketType(concertId, payload)
  {
    if editing.Some? then UpdateTicketType(editing.value.id, payload) else CreateTicketType(concertId, payload)
  }

  /** What `fetchData` reads: the ticket types (None when not an array) and the first venue's sections. */
  datatype TicketPageData = TicketPageData(ticketTypes: Option<seq<TicketType>>, firstVenueSections: Option<seq<Section>>)

  function Available(t: TicketType): int { t.available }

  function Revenue(t: TicketType): real { t.price * t.available as real }

  /** `totalTickets` */
  function TotalTickets(ticketTypes: seq<TicketType>): int {
    SumInt(ticketTypes, Available)
  }

  /** `totalRevenue` */
  function TotalRevenue(ticketTypes: seq<TicketType>): real {
    SumReal(ticketTypes, Revenue)
  }

  function OtherThan(id: int): TicketType -> bool {
    (t: TicketType) => t.id != id
  }

  function SameId(id: int): TicketType -> bool {
    (t: TicketType) => t.id == id
  }

  /** Deleting a ticket type takes exactly its quantity out of the total. */
  lemma DeleteSplitsTicketTotal(ticketTypes: seq<TicketType>, id: int)
    ensures TotalTickets(ticketTypes) ==
      TotalTickets(Filter(ticketTypes, OtherThan(id))) + SumInt(Filter(ticketTypes, SameId(id)), Available)
  {
    SumIntSplit(ticketTypes, OtherThan(id), SameId(id), Available);
  }

  /** Deleting a ticket type takes exactly its revenue out of the total. */
  lemma DeleteSplitsRevenueTotal(ticketTypes: seq<TicketType>, id: int)
    ensures TotalRevenue(ticketTypes) ==
      TotalRevenue(Filter(ticketTypes, OtherThan(id))) + SumReal(Filter(ticketTypes, SameId(id)), Revenue)
  {
    SumRealSplit(ticketTypes, OtherThan(id), SameId(id), Revenue);
  }

  class TicketTypesPage {
    const concertId: string
    var ticketTypes: seq<TicketType>
    var sections: seq<Section>
    var loading: bool
    var error: string
    var showModal: bool
    var editingTicket: Option<TicketType>
    var form: TicketForm

    constructor (concertId: string)
      ensures this.concertId == concertId
      ensures ticketTypes == [] && sections == [] && loading && error == ""
      ensures !showModal && editingTicket.None? && form == EmptyTicketForm
    {
      this.concertId := concertId;
      ticketTypes := [];
      sections := [];
      loading := true;
      error := "";
      showModal := false;
      editingTicket := None;
      form := EmptyTicketForm;
    }

    /** `fetchData`, given the settled replies of both requests. */
    method FetchData(reply: Result<TicketPageData, ErrorBody>)
      modifies this`ticketTypes, this`sections, this`error, this`loading
      ensures !loading
      ensures reply.Success? ==>
        ticketTypes == (if reply.value.ticketTypes.Some? then reply.value.ticketTypes.value else []) &&
        sections == (if reply.value.firstVenueSections.Some? then reply.value.firstVenueSections.value else []) &&
        error == old(error)
      ensures reply.Failure? ==>
        ticketTypes == old(ticketTypes) && sections == old(sections) && error == MessageOr(reply.error, LoadFallback)
    {
      loading := true;
      match reply {
        case Success(data) =>
          ticketTypes := if data.ticketTypes.Some? then data.ticketTypes.value else [];
          sections := if data.firstVenueSections.Some? then data.firstVenueSections.value else [];
        case Failure(e) =>
          error := MessageOr(e, LoadFallback);
      }
      loading := false;
    }

    /** `handleOpenModal(ticket)`: editing a ticket pre-fills the form, creating starts empty. */
    method OpenModal(ticket: Option<TicketType>)
      modifies this`showModal, this`editingTicket, this`form
      ensures showModal && editingTicket == ticket
      ensures form == if ticket.Some? then FormOf(ticket.value) else EmptyTicketForm
    {
      if ticket.Some? {
        editingTicket := ticket;
        form := FormOf(ticket.value);
      } else {
        editingTicket := None;
        form := EmptyTicketForm;
      }
      showModal := true;
    }

    /** `handleCloseModal` */
    method CloseModal()
      modifies this`showModal, this`editingTicket, this`form, this`error
      ensures !showModal && editingTicket.None? && form == EmptyTicketForm && error == ""
    {
      showModal := false;
      editingTicket := None;
      form := EmptyTicketForm;
      error := "";
    }

    /** `handleChange` */
    method HandleChange(edit: TicketEdit)
      modifies this`form
      ensures form == Edited(old(form), edit)
    {
      form := Edited(form, edit);
    }

    /**
     * `handleSubmit`, given the settled reply of the save call and of the refetch that
     * follows a successful save. Returns the save request made, None when a check failed.
     */
    method HandleSubmit(saveReply: Result<TicketType, ErrorBody>, refetch: Result<TicketPageData, ErrorBody>)
      returns (request: Option<TicketRequest>)
      modifies this`ticketTypes, this`sections, this`error, this`loading, this`showModal, this`editingTicket, this`form
      ensures TicketFormFailure(old(form)).Some? ==>
        request.None? && error == TicketFormFailure(old(form)).value &&
        showModal == old(showModal) && editingTicket == old(editingTicket) && form == old(form) &&
        ticketTypes == old(ticketTypes) && sections == old(sections) && loading == old(loading)
      ensures TicketFormFailure(old(form)).None? ==>
        request == Some(RequestFor(old(editingTicket), concertId, PayloadOf(old(form))))
      ensures TicketFormFailure(old(form)).None? && saveReply.Success? ==>
        !showModal && editingTicket.None? && form == EmptyTicketForm && error == "" && !loading &&
        (refetch.Success? ==>
          ticketTypes == (if refetch.value.ticketTypes.Some? then refetch.value.ticketTypes.value else []) &&
          sections == (if refetch.value.firstVenueSections.Some? then refetch.value.firstVenueSections.value else [])) &&
        (refetch.Failure? ==> ticketTypes == old(ticketTypes) && sections == old(sections))
      ensures TicketFormFailure(old(form)).None? && saveReply.Failure? ==>
        error == MessageOr(saveReply.error, SaveFallback) &&
        showModal == old(showModal) && editingTicket == old(editingTicket) && form == old(form) &&
        ticketTypes == old(ticketTypes) && sections == old(sections) && loading == old(loading)
    {
      var failure := TicketFormFailure(form);
      error := "";
      if failure.Some? {
        error := failure.value;
        return None;
      }
      var payload := PayloadOf(form);
      request := Some(RequestFor(editingTicket, concertId, payload));
      match saveReply {
        case Success(_) =>
          FetchData(refetch);
          CloseModal();
        case Failure(e) =>
          error := MessageOr(e, SaveFallback);
      }
    }

    /**
     * `handleDelete`, with the answer to its dialog and the settled reply of the delete call.
     * Returns whether the call was made, and the alert shown when it failed.
     */
    method HandleDelete(ticketId: int, confirmed: bool, reply: Result<(), ErrorBody>)
      returns (called: bool, alert: Option<string>)
      modifies this`ticketTypes
      ensures called == confirmed
      ensures confirmed && reply.Success? ==> ticketTypes == Filter(old(ticketTypes), OtherThan(ticketId)) && alert.None?
      ensures confirmed && reply.Failure? ==> ticketTypes == old(ticketTypes) && alert == Some(MessageOr(reply.error, DeleteFallback))
      ensures !confirmed ==> ticketTypes == old(ticketTypes) && alert.None?
    {
      called := confirmed;
      alert := None;
      if !confirmed {
        return;
      }
      match reply {
        case Success(_) =>
          ticketTypes := Filter(ticketTypes, OtherThan(ticketId));
        case Failure(e) =>
          alert := Some(MessageOr(e, DeleteFallback));
      }
    }
  }

  /** A delete removes every entry with that id, keeps every other one, and keeps their order. */
  lemma DeleteRemovesExactlyThatId(ticketTypes: seq<TicketType>, id: int)
    ensures forall i :: 0 <= i < |Filter(ticketTypes, OtherThan(id))| ==> Filter(ticketTypes, OtherThan(id))[i].id != id
    ensures forall i :: 0 <= i < |ticketTypes| && ticketTypes[i].id != id ==> ticketTypes[i] in Filter(ticketTypes, OtherThan(id))
    ensures SubsequenceOf(Filter(ticketTypes, OtherThan(id)), ticketTypes)
  {
    FilterIsSubsequence(ticketTypes, OtherThan(id));
  }
}
