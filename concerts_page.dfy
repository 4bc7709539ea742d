/**
 * The public concert list: only concerts on sale are shown, in the order the backend
 * sent them, each with its status badge.
 */
module Concerts {
  import opened Wrappers
  import opened Seqs
  import opened Records
  import opened ApiService
  import opened Listing

  const LoadFallback := "Error al cargar conciertos"

  /** `concert.status?.descripcion === 'on_sale'` */
  predicate OnSale(c: Concert) {
    c.statusDescription == Some("on_sale")
  }

  /** `availableConcerts`: the normalised list, keeping the concerts on sale. */
  function AvailableConcerts(response: ListResponse<Concert>): (shown: seq<Concert>)
    ensures forall i :: 0 <= i < |shown| ==> OnSale(shown[i]) && shown[i] in Listed(response)
    ensures forall i :: 0 <= i < |Listed(response)| && OnSale(Listed(response)[i]) ==> Listed(response)[i] in shown
    ensures |shown| <= |Listed(response)|
  {
    Filter(Listed(response), OnSale)
  }

  /** The list keeps the backend's order and adds nothing: it is a subsequence of what arrived. */
  lemma AvailableKeepsBackendOrder(response: ListResponse<Concert>)
    ensures SubsequenceOf(AvailableConcerts(response), Listed(response))
  {
    FilterIsSubsequence(Listed(response), OnSale);
  }

  /** `fetchConcerts`: the concerts on sale, or the list already shown and an error. */
  function AfterConcertsFetch(state: ListState<Concert>, reply: Result<ListResponse<Concert>, ErrorBody>): (r: ListState<Concert>)
    ensures reply.Success? ==> r.items == AvailableConcerts(reply.value) && r.error == state.error
    ensures reply.Failure? ==> r.items == state.items && r.error == MessageOr(reply.error, LoadFallback)
  {
    match reply
    case Success(body) => state.(items := AvailableConcerts(body))
    case Failure(e) => state.(error := MessageOr(e, LoadFallback))
  }

  /** The five states `getStatusBadge` has a caption for. */
  predicate KnownState(status: string) {
    status in {"on_sale", "sold_out", "scheduled", "completed", "canceled"}
  }

  /** `getStatusBadge(status)`: the five known states get captions; any other shows as it is. */
  function StatusBadge(status: string): (caption: string)
    ensures !KnownState(status) ==> caption == status
  {
    if status == "on_sale" then "En Venta"
    else if status == "sold_out" then "Agotado"
    else if status == "scheduled" then "Próximamente"
    else if status == "completed" then "Finalizado"
    else if status == "canceled" then "Cancelado"
    else status
  }

  /** `concert.status?.descripcion || 'unknown'` */
  function BadgeArgument(c: Concert): (status: string)
    ensures c.statusDescription.Some? && c.statusDescription.value != "" ==> status == c.statusDescription.value
    ensures c.statusDescription.None? || c.statusDescription == Some("") ==> status == "unknown"
  {
    if c.statusDescription.Some? && c.statusDescription.value != "" then c.statusDescription.value else "unknown"
  }

  /** Every concert the page lists carries the 'En Venta' badge. */
  lemma ListedConcertsShowOnSale(response: ListResponse<Concert>)
    ensures forall i :: 0 <= i < |AvailableConcerts(response)| ==>
      StatusBadge(BadgeArgument(AvailableConcerts(response)[i])) == "En Venta"
  {
  }

  /** A concert without a state shows the 'unknown' badge. */
  lemma MissingStatusShowsUnknown(c: Concert)
    requires c.statusDescription.None? || c.statusDescription == Some("")
    ensures StatusBadge(BadgeArgument(c)) == "unknown"
  {
    assert "unknown"[0] !in {'o', 's', 'c'};
  }

  /**
   * Two different states show the same badge only when one of them is an unknown state
   * spelled exactly like the other's caption: the known captions are pairwise distinct.
   */
  lemma SameBadgeOnlyForCaptionNames(a: string, b: string)
    requires a != b && StatusBadge(a) == StatusBadge(b)
    ensures (KnownState(a) && !KnownState(b) && b == StatusBadge(a)) ||
            (KnownState(b) && !KnownState(a) && a == StatusBadge(b))
  {
    assert "En Venta"[0] == 'E' && "Agotado"[0] == 'A' && "Próximamente"[0] == 'P';
    assert "Finalizado"[0] == 'F' && "Cancelado"[0] == 'C';
  }
}
