/**
 * The administrators' sections page of one venue: the list with its total capacity,
 * the create/edit modal with its ordered checks and payload, and delete by id.
 */
module VenueSections {
  import opened Wrappers
  import opened Text
  import opened Seqs
  import opened Validation
  import opened Records
  import opened ApiService

  /** The modal's form; the capacity input holds its parsed value, None when empty (''). */
  datatype SectionForm = SectionForm(name: string, capacity: Option<int>)

  const EmptySectionForm := SectionForm("", None)

  /** One `handleChange` event: the input it comes from and its new value. */
  datatype SectionEdit = NameEdit(name: string) | CapacityEdit(capacity: Option<int>)

  function Edited(form: SectionForm, edit: SectionEdit): SectionForm {
    match edit
    case NameEdit(v) => form.(name := v)
    case CapacityEdit(v) => form.(capacity := v)
  }

  /** An edit sets its own input and leaves the other as it was. */
  lemma EditChangesOnlyItsInput(form: SectionForm, edit: SectionEdit)
    ensures edit.NameEdit? ==> Edited(form, edit).name == edit.name && Edited(form, edit).capacity == form.capacity
    ensures edit.CapacityEdit? ==> Edited(form, edit).capacity == edit.capacity && Edited(form, edit).name == form.name
  {
  }

  /** The form `handleOpenModal(section)` fills in. */
  function FormOf(section: Section): SectionForm {
    SectionForm(section.name, Some(section.capacity))
  }

  const NameMessage := "El nombre de la sección es obligatorio"
  const CapacityMessage := "La capacidad debe ser mayor a 0"
  const SaveFallback := "Error al guardar la sección"
  const LoadFallback := "Error al cargar datos"
  const DeleteFallback := "Error al eliminar la sección"

  predicate NameGiven(form: SectionForm) { !IsBlank(form.name) }
  predicate CapacityPositive(form: SectionForm) { form.capacity.Some? && form.capacity.value > 0 }

  function SectionChecks(form: SectionForm): seq<Check> {
    [Check(NameGiven(form), NameMessage), Check(CapacityPositive(form), CapacityMessage)]
  }

  /** The first failing check of `handleSubmit`, None when the form may be sent. */
  function SectionFormFailure(form: SectionForm): (r: Option<string>)
    ensures r.None? <==> !IsBlank(form.name) && form.capacity.Some? && form.capacity.value > 0
  {
    var checks := SectionChecks(form);
    assert (forall i :: 0 <= i < |checks| ==> checks[i].passes) <==>
      NameGiven(form) && CapacityPositive(form) by {
      assert checks[0].passes == NameGiven(form);
      assert checks[1].passes == CapacityPositive(form);
    }
    FirstFailure(checks)
  }

  /** The name is checked before the capacity; only the first failure is told. */
  lemma SectionChecksInOrder(form: SectionForm)
    ensures IsBlank(form.name) ==> SectionFormFailure(form) == Some(NameMessage)
    ensures !IsBlank(form.name) && !(form.capacity.Some? && form.capacity.value > 0) ==>
      SectionFormFailure(form) == Some(CapacityMessage)
  {
    var checks := SectionChecks(form);
    if IsBlank(form.name) {
      FirstFailureAt(checks, 0);
    } else if !CapacityPositive(form) {
      FirstFailureAt(checks, 1);
    }
  }

  /** `dataToSend`: the name and the capacity, nothing else. */
  datatype SectionPayload = SectionPayload(name: string, capacity: int)

  function PayloadOf(form: SectionForm): SectionPayload
    requires SectionFormFailure(form).None?
  {
    SectionPayload(form.name, form.capacity.value)
  }

  /** A payload that passed the checks carries the form's name and a positive capacity. */
  lemma PayloadIsPositive(form: SectionForm)
    requires SectionFormFailure(form).None?
    ensures PayloadOf(form).capacity > 0 && Some(PayloadOf(form).capacity) == form.capacity
    ensures PayloadOf(form).name == form.name && !IsBlank(PayloadOf(form).name)
  {
  }

  /** The service call a valid submit makes. */
  datatype SectionRequest =
    | UpdateSection(venueId: string, sectionId: int, payload: SectionPayload)
    | CreateSection(venueId: string, payload: SectionPayload)

  function RequestFor(editing: Option<Section>, venueId: string, payload: SectionPayload): (r: SectionRequest)
    ensures r.UpdateSection? <==> editing.Some?
    ensures editing.Some? ==> r == UpdateSection(venueId, editing.value.id, payload)
    ensures editing.None? ==> r == CreateSection(venueId, payload)
  {
    if editing.Some? then UpdateSection(venueId, editing.value.id, payload) else CreateSection(venueId, payload)
  }

  /** What `fetchData` reads: the venue and the sections reply. */
  datatype SectionPageData = SectionPageData(venue: Venue, sections: ListResponse<Section>)

  function Capacity(s: Section): int { s.capacity }

  /** `totalCapacity` */
  function TotalCapacity(sections: seq<Section>): int {
    SumInt(sections, Capacity)
  }

  function OtherThan(id: int): Section -> bool {
    (s: Section) => s.id != id
  }

  function SameId(id: int): Section -> bool {
    (s: Section) => s.id == id
  }

  /** Deleting a section takes exactly its capacity out of the total. */
  lemma DeleteSplitsCapacity(sections: seq<Section>, id: int)
    ensures TotalCapacity(sections) ==
      TotalCapacity(Filter(sections, OtherThan(id))) + SumInt(Filter(sections, SameId(id)), Capacity)
  {
    SumIntSplit(sections, OtherThan(id), SameId(id), Capacity);
  }

  /** With non-negative capacities, a delete never raises the total. */
  lemma DeleteLowersCapacity(sections: seq<Section>, id: int)
    requires forall i :: 0 <= i < |sections| ==> sections[i].capacity >= 0
    ensures 0 <= TotalCapacity(Filter(sections, OtherThan(id))) <= TotalCapacity(sections)
  {
    DeleteSplitsCapacity(sections, id);
    var removed := Filter(sections, SameId(id));
    var kept := Filter(sections, OtherThan(id));
    assert forall i :: 0 <= i < |removed| ==> Capacity(removed[i]) >= 0;
    assert forall i :: 0 <= i < |kept| ==> Capacity(kept[i]) >= 0;
    SumIntNonNegative(removed, Capacity);
    SumIntNonNegative(kept, Capacity);
  }

  /** A delete removes every section with that id, keeps every other one, and keeps their order. */
  lemma DeleteRemovesExactlyThatId(sections: seq<Section>, id: int)
    ensures forall i :: 0 <= i < |Filter(sections, OtherThan(id))| ==> Filter(sections, OtherThan(id))[i].id != id
    ensures forall i :: 0 <= i < |sections| && sections[i].id != id ==> sections[i] in Filter(sections, OtherThan(id))
    ensures SubsequenceOf(Filter(sections, OtherThan(id)), sections)
  {
    FilterIsSubsequence(sections, OtherThan(id));
  }

  class VenueSectionsPage {
    const venueId: string
    var venue: Option<Venue>
    var sections: seq<Section>
    var loading: bool
    var error: string
    var showModal: bool
    var editingSection: Option<Section>
    var form: SectionForm

    constructor (venueId: string)
      ensures this.venueId == venueId
      ensures venue.None? && sections == [] && loading && error == ""
      ensures !showModal && editingSection.None? && form == EmptySectionForm
    {
      this.venueId := venueId;
      venue := None;
      sections := [];
      loading := true;
      error := "";
      showModal := false;
      editingSection := None;
      form := EmptySectionForm;
    }

    /** `fetchData`, given the settled replies of both requests. */
    method FetchData(reply: Result<SectionPageData, ErrorBody>)
      modifies this`venue, this`sections, this`error, this`loading
      ensures !loading
      ensures reply.Success? ==>
        venue == Some(reply.value.venue) && sections == Listed(reply.value.sections) && error == old(error)
      ensures reply.Failure? ==>
        venue == old(venue) && sections == old(sections) && error == MessageOr(reply.error, LoadFallback)
    {
      loading := true;
      match reply {
        case Success(data) =>
          venue := Some(data.venue);
          sections := Listed(data.sections);
        case Failure(e) =>
          error := MessageOr(e, LoadFallback);
      }
      loading := false;
    }

    /** `handleOpenModal(section)`: editing a section pre-fills the form, creating starts empty. */
    method OpenModal(section: Option<Section>)
      modifies this`showModal, this`editingSection, this`form
      ensures showModal && editingSection == section
      ensures form == if section.Some? then FormOf(section.value) else EmptySectionForm
    {
      if section.Some? {
        editingSection := section;
        form := FormOf(section.value);
      } else {
        editingSection := None;
        form := EmptySectionForm;
      }
      showModal := true;
    }

    /** `handleCloseModal` */
    method CloseModal()
      modifies this`showModal, this`editingSection, this`form, this`error
      ensures !showModal && editingSection.None? && form == EmptySectionForm && error == ""
    {
      showModal := false;
      editingSection := None;
      form := EmptySectionForm;
      error := "";
    }

    /** `handleChange` */
    method HandleChange(edit: SectionEdit)
      modifies this`form
      ensures form == Edited(old(form), edit)
    {
      form := Edited(form, edit);
    }

    /**
     * `handleSubmit`, given the settled reply of the save call and of the refetch that
     * follows a successful save. Returns the save request made, None when a check failed.
     */
    method HandleSubmit(saveReply: Result<Section, ErrorBody>, refetch: Result<SectionPageData, ErrorBody>)
      returns (request: Option<SectionRequest>)
      modifies this`venue, this`sections, this`error, this`loading, this`showModal, this`editingSection, this`form
      ensures SectionFormFailure(old(form)).Some? ==>
        request.None? && error == SectionFormFailure(old(form)).value &&
        showModal == old(showModal) && editingSection == old(editingSection) && form == old(form) &&
        venue == old(venue) && sections == old(sections) && loading == old(loading)
      ensures SectionFormFailure(old(form)).None? ==>
        request == Some(RequestFor(old(editingSection), venueId, PayloadOf(old(form))))
      ensures SectionFormFailure(old(form)).None? && saveReply.Success? ==>
        !showModal && editingSection.None? && form == EmptySectionForm && error == "" && !loading &&
        (refetch.Success? ==> venue == Some(refetch.value.venue) && sections == Listed(refetch.value.sections)) &&
        (refetch.Failure? ==> venue == old(venue) && sections == old(sections))
      ensures SectionFormFailure(old(form)).None? && saveReply.Failure? ==>
        error == MessageOr(saveReply.error, SaveFallback) &&
        showModal == old(showModal) && editingSection == old(editingSection) && form == old(form) &&
        venue == old(venue) && sections == old(sections) && loading == old(loading)
    {
      var failure := SectionFormFailure(form);
      error := "";
      if failure.Some? {
        error := failure.value;
        return None;
      }
      var payload := PayloadOf(form);
      request := Some(RequestFor(editingSection, venueId, payload));
      match saveReply {
        case Success(_) =>
          FetchData(refetch);
          CloseModal();
        case Failure(e) =>
          error := MessageOr(e, SaveFallback);
      }
    }

    /**
     * `handleDelete`, with the answer to its dialog and the settled reply of the delete call.
     * Returns whether the call was made, and the alert shown when it failed.
     */
    method HandleDelete(sectionId: int, confirmed: bool, reply: Result<(), ErrorBody>)
      returns (called: bool, alert: Option<string>)
      modifies this`sections
      ensures called == confirmed
      ensures confirmed && reply.Success? ==> sections == Filter(old(sections), OtherThan(sectionId)) && alert.None?
      ensures confirmed && reply.Failure? ==> sections == old(sections) && alert == Some(MessageOr(reply.error, DeleteFallback))
      ensures !confirmed ==> sections == old(sections) && alert.None?
    {
      called := confirmed;
      alert := None;
      if !confirmed {
        return;
      }
      match reply {
        case Success(_) =>
          sections := Filter(sections, OtherThan(sectionId));
        case Failure(e) =>
          alert := Some(MessageOr(e, DeleteFallback));
      }
    }
  }
}
