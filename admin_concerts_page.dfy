/**
 * The administrators' concert list: loading and normalising the list, delete by id after
 * confirmation, the three status counts and the case-insensitive status badge.
 */
module AdminConcerts {
  import opened Wrappers
  import opened Text
  import opened Seqs
  import opened Records
  import opened ApiService

  const LoadFallback := "Error al cargar conciertos"
  const DeleteFallback := "Error al eliminar"

  /** `c.status?.descripcion === s` */
  function WithStatus(s: string): Concert -> bool {
    (c: Concert) => c.statusDescription == Some(s)
  }

  /** The length of `concerts.filter(c => c.status?.descripcion === s)`. */
  function StatusCount(concerts: seq<Concert>, s: string): nat {
    |Filter(concerts, WithStatus(s))|
  }

  /**
   * The "En Venta", "Programado" and "Agotado" figures never count a concert twice, so
   * together with the concerts in any other state they add up to at most the total.
   */
  lemma StatusCountsBounded(concerts: seq<Concert>)
    ensures StatusCount(concerts, "on_sale") + StatusCount(concerts, "scheduled") + StatusCount(concerts, "sold_out") <= |concerts|
  {
    assert "on_sale"[0] != "scheduled"[0] && "on_sale"[0] != "sold_out"[0] && "scheduled"[1] != "sold_out"[1];
    ThreeDisjointCounts(concerts, WithStatus("on_sale"), WithStatus("scheduled"), WithStatus("sold_out"));
  }

  /** Each count is exactly the number of concerts in that state. */
  lemma StatusCountLimits(concerts: seq<Concert>, s: string)
    ensures StatusCount(concerts, s) <= |concerts|
    ensures (forall i :: 0 <= i < |concerts| ==> concerts[i].statusDescription == Some(s)) ==> StatusCount(concerts, s) == |concerts|
  {
    if forall i :: 0 <= i < |concerts| ==> concerts[i].statusDescription == Some(s) {
      FilterKeepsAll(concerts, WithStatus(s));
    }
  }

  /** The badge caption of a known state, keyed in lower case. */
  function KnownCaption(key: string): Option<string> {
    if key == "on_sale" then Some("En Venta")
    else if key == "sold_out" then Some("Agotado")
    else if key == "scheduled" then Some("Programado")
    else if key == "completed" then Some("Finalizado")
    else if key == "canceled" then Some("Cancelado")
    else None
  }

  /**
   * `getStatusBadge(status)`: the known states are looked up after lower-casing; another
   * state shows as it is, and a missing or empty one as 'Desconocido'.
   */
  function StatusBadge(status: Option<string>): (caption: string)
    ensures status.Some? && KnownCaption(ToLowerAscii(status.value)).Some? ==>
      caption == KnownCaption(ToLowerAscii(status.value)).value
    ensures status.Some? && status.value != "" && KnownCaption(ToLowerAscii(status.value)).None? ==>
      caption == status.value
    ensures status.None? || status == Some("") ==> caption == "Desconocido"
  {
    if status.Some? && KnownCaption(ToLowerAscii(status.value)).Some? then
      KnownCaption(ToLowerAscii(status.value)).value
    else if status.Some? && status.value != "" then
      status.value
    else
      "Desconocido"
  }

  lemma ToLowerAsciiIdempotent(s: string)
    ensures ToLowerAscii(ToLowerAscii(s)) == ToLowerAscii(s)
  {
  }

  /** Lower-casing the state first never changes its badge. */
  lemma BadgeIgnoresCase(s: string)
    requires KnownCaption(ToLowerAscii(s)).Some?
    ensures StatusBadge(Some(s)) == StatusBadge(Some(ToLowerAscii(s)))
  {
    ToLowerAsciiIdempotent(s);
  }

  lemma KnownCaptionsDistinct(a: string, b: string)
    requires KnownCaption(a).Some? && KnownCaption(b).Some? && a != b
    ensures KnownCaption(a) != KnownCaption(b)
  {
    assert "En Venta"[0] == 'E' && "Agotado"[0] == 'A' && "Programado"[0] == 'P';
    assert "Finalizado"[0] == 'F' && "Cancelado"[0] == 'C';
  }

  /**
   * Two states whose lower-case forms are known show the same badge exactly when they are
   * the same state up to case. A known state and an unknown one share a badge only when
   * the unknown one is spelled exactly like the known one's caption.
   */
  lemma SameBadgeSameState(a: string, b: string)
    requires KnownCaption(ToLowerAscii(a)).Some?
    ensures KnownCaption(ToLowerAscii(b)).Some? ==>
      (StatusBadge(Some(a)) == StatusBadge(Some(b)) <==> ToLowerAscii(a) == ToLowerAscii(b))
    ensures KnownCaption(ToLowerAscii(b)).None? ==>
      (StatusBadge(Some(a)) == StatusBadge(Some(b)) <==> b == KnownCaption(ToLowerAscii(a)).value)
  {
    if KnownCaption(ToLowerAscii(b)).Some? && ToLowerAscii(a) != ToLowerAscii(b) {
      KnownCaptionsDistinct(ToLowerAscii(a), ToLowerAscii(b));
    }
  }

  function OtherThan(id: int): Concert -> bool {
    (c: Concert) => c.id != id
  }

  /** A delete removes every concert with that id, keeps every other one, and keeps their order. */
  lemma DeleteRemovesExactlyThatId(concerts: seq<Concert>, id: int)
    ensures forall i :: 0 <= i < |Filter(concerts, OtherThan(id))| ==> Filter(concerts, OtherThan(id))[i].id != id
    ensures forall i :: 0 <= i < |concerts| && concerts[i].id != id ==> concerts[i] in Filter(concerts, OtherThan(id))
    ensures SubsequenceOf(Filter(concerts, OtherThan(id)), concerts)
  {
    FilterIsSubsequence(concerts, OtherThan(id));
  }

  class AdminConcertsPage {
    var concerts: seq<Concert>
    var loading: bool
    var error: string

    constructor ()
      ensures concerts == [] && loading && error == ""
    {
      concerts := [];
      loading := true;
      error := "";
    }

    /** `fetchConcerts`: a bare array is the list, otherwise its `concerts` field or []. */
    method FetchConcerts(reply: Result<ListResponse<Concert>, ErrorBody>)
      modifies this
      ensures !loading
      ensures reply.Success? ==> concerts == Listed(reply.value) && error == old(error)
      ensures reply.Failure? ==> concerts == old(concerts) && error == MessageOr(reply.error, LoadFallback)
    {
      loading := true;
      match reply {
        case Success(body) =>
          concerts := Listed(body);
        case Failure(e) =>
          error := MessageOr(e, LoadFallback);
      }
      loading := false;
    }

    /**
     * `handleDelete`, with the answer to its dialog and the settled reply of the delete call.
     * Returns whether the call was made, and the alert shown when it failed.
     */
    method HandleDelete(id: int, confirmed: bool, reply: Result<(), ErrorBody>)
      returns (called: bool, alert: Option<string>)
      modifies this`concerts
      ensures called == confirmed
      ensures confirmed && reply.Success? ==> concerts == Filter(old(concerts), OtherThan(id)) && alert.None?
      ensures confirmed && reply.Failure? ==> concerts == old(concerts) && alert == Some(MessageOr(reply.error, DeleteFallback))
      ensures !confirmed ==> concerts == old(concerts) && alert.None?
    {
      called := confirmed;
      alert := None;
      if !confirmed {
        return;
      }
      match reply {
        case Success(_) =>
          concerts := Filter(concerts, OtherThan(id));
        case Failure(e) =>
          alert := Some(MessageOr(e, DeleteFallback));
      }
    }
  }
}
