/**
 * The inquiry dashboard: three pieces of view state (the inquiry list, the
 * loading flag and the selected status filter) and the handlers that change
 * them. Network calls and the delete confirmation prompt are inputs: each
 * handler receives the outcome of the calls it makes and returns the
 * requests it issued, in order.
 *
 * `Step` and `Run` are the specification of the handlers on values;
 * the class `Component` holds the state as fields and its methods are
 * proved to follow `Step`.
 */
module Dashboard {
  import opened Wrappers
  import opened Inquiries

  /** The outcome of reading the inquiry collection. */
  datatype FetchResponse = Fetched(data: seq<Inquiry>) | FetchFailed

  /** The outcome of a status update or a deletion. */
  datatype MutationResponse = Succeeded | MutationFailed

  /** A request sent to the inquiries API. */
  datatype Request = GetAll | Patch(id: string, status: string) | Delete(id: string)

  /** A user action or lifecycle trigger, together with the outcomes of the
      calls its handler makes. An outcome the handler never reaches (the
      re-fetch after a failed mutation, say) is ignored. */
  datatype Event =
    | Refresh(response: FetchResponse)
    | StatusChanged(id: string, status: string, patch: MutationResponse, refetch: FetchResponse)
    | DeleteClicked(id: string, confirmed: bool, removal: MutationResponse, refetch: FetchResponse)
    | FilterChanged(value: string)

  datatype ViewState = ViewState(inquiries: seq<Inquiry>, loading: bool, selectedStatus: string)

  /** The state when the page is first rendered. */
  function Init(): (s: ViewState)
    ensures s.inquiries == [] && s.loading && s.selectedStatus == All
  {
    ViewState([], true, All)
  }

  /** A completed read: the list is replaced on success and kept on failure;
      the loading flag is cleared either way. */
  function AfterFetch(s: ViewState, r: FetchResponse): (t: ViewState)
    ensures !t.loading && t.selectedStatus == s.selectedStatus
    ensures r.Fetched? ==> t.inquiries == r.data
    ensures r.FetchFailed? ==> t.inquiries == s.inquiries
  {
    match r
    case Fetched(data) => s.(inquiries := data, loading := false)
    case FetchFailed => s.(loading := false)
  }

  /** The state after one event has been handled to completion. */
  function Step(s: ViewState, e: Event): (t: ViewState)
    ensures t.loading <==> s.loading && !ReadsCollection(e)
    ensures Delivered(e).Some? ==> t.inquiries == Delivered(e).value
    ensures Delivered(e).None? ==> t.inquiries == s.inquiries
    ensures e.FilterChanged? ==> t.selectedStatus == e.value
    ensures !e.FilterChanged? ==> t.selectedStatus == s.selectedStatus
  {
    match e
    case Refresh(r) => AfterFetch(s, r)
    case StatusChanged(_, _, patch, refetch) =>
      if patch.Succeeded? then AfterFetch(s, refetch) else s
    case DeleteClicked(_, confirmed, removal, refetch) =>
      if confirmed && removal.Succeeded? then AfterFetch(s, refetch) else s
    case FilterChanged(v) => s.(selectedStatus := v)
  }

  /** The requests issued while handling one event. */
  function Requests(e: Event): (r: seq<Request>)
    ensures r == [] <==> e.FilterChanged? || (e.DeleteClicked? && !e.confirmed)
    ensures |r| <= 2
    ensures GetAll in r ==> r[|r| - 1] == GetAll && GetAll !in r[..|r| - 1]
    ensures e.StatusChanged? ==> r[0] == Patch(e.id, e.status)
    ensures e.DeleteClicked? && e.confirmed ==> r[0] == Delete(e.id)
  {
    match e
    case Refresh(_) => [GetAll]
    case StatusChanged(id, status, patch, _) =>
      [Patch(id, status)] + (if patch.Succeeded? then [GetAll] else [])
    case DeleteClicked(id, confirmed, removal, _) =>
      if !confirmed then []
      else [Delete(id)] + (if removal.Succeeded? then [GetAll] else [])
    case FilterChanged(_) => []
  }

  /** The state after a sequence of events, handled one after the other. */
  function Run(s: ViewState, es: seq<Event>): ViewState
    decreases |es|
  {
    if es == [] then s else Run(Step(s, es[0]), es[1..])
  }

  /** The list received by the successful read that handling `e` completes, if any. */
  function Delivered(e: Event): Option<seq<Inquiry>> {
    match e
    case Refresh(Fetched(d)) => Some(d)
    case StatusChanged(_, _, Succeeded, Fetched(d)) => Some(d)
    case DeleteClicked(_, true, Succeeded, Fetched(d)) => Some(d)
    case _ => None
  }

  /** The list of the last successful read in `es`, or `before` if there is none. */
  function LastDelivered(es: seq<Event>, before: seq<Inquiry>): seq<Inquiry>
    decreases |es|
  {
    if es == [] then before
    else
      match Delivered(es[|es| - 1])
      case Some(d) => d
      case None => LastDelivered(es[..|es| - 1], before)
  }

  /** Handling the event issues a read of the collection. */
  predicate ReadsCollection(e: Event) {
    GetAll in Requests(e)
  }

  /** A list is only ever delivered by a read the handler issued. */
  lemma DeliveredOnlyByRead(e: Event)
    ensures Delivered(e).Some? ==> ReadsCollection(e)
    ensures e.FilterChanged? ==> Requests(e) == []
  {
  }

  lemma {:induction false} RunAppend(s: ViewState, a: seq<Event>, b: seq<Event>)
    ensures Run(s, a + b) == Run(Run(s, a), b)
    decreases |a|
  {
    if a == [] {
      assert a + b == b;
    } else {
      assert (a + b)[0] == a[0];
      assert (a + b)[1..] == a[1..] + b;
      RunAppend(Step(s, a[0]), a[1..], b);
    }
  }

  /** Nothing ever sets the loading flag again: once cleared it stays cleared. */
  lemma {:induction false} LoadingStaysCleared(s: ViewState, es: seq<Event>)
    requires !s.loading
    ensures !Run(s, es).loading
    decreases |es|
  {
    if es != [] {
      LoadingStaysCleared(Step(s, es[0]), es[1..]);
    }
  }

  /** The loading flag is still set exactly when it was set to begin with and
      no handled event has read the collection. */
  lemma {:induction false} LoadingUntilFirstRead(s: ViewState, es: seq<Event>)
    ensures Run(s, es).loading <==>
            s.loading && forall i :: 0 <= i < |es| ==> !ReadsCollection(es[i])
    decreases |es|
  {
    if es != [] {
      LoadingUntilFirstRead(Step(s, es[0]), es[1..]);
      assert Step(s, es[0]).loading <==> s.loading && !ReadsCollection(es[0]);
      if forall i :: 0 <= i < |es[1..]| ==> !ReadsCollection(es[1..][i]) {
        if !ReadsCollection(es[0]) {
          forall i | 0 <= i < |es| ensures !ReadsCollection(es[i]) {
            if i > 0 { assert es[i] == es[1..][i - 1]; }
          }
        }
      } else {
        var j :| 0 <= j < |es[1..]| && ReadsCollection(es[1..][j]);
        assert ReadsCollection(es[j + 1]);
      }
    }
  }

  /** After the read issued on mount, the spinner never comes back, whatever follows. */
  lemma MountedNeverLoadsAgain(r: FetchResponse, es: seq<Event>)
    ensures !Run(Init(), [Refresh(r)] + es).loading
  {
    RunAppend(Init(), [Refresh(r)], es);
    LoadingStaysCleared(Run(Init(), [Refresh(r)]), es);
  }

  /** The list held is always a full mirror of the last successful read:
      no handler patches it locally. */
  lemma {:induction false} MirrorsLastRead(s: ViewState, es: seq<Event>)
    ensures Run(s, es).inquiries == LastDelivered(es, s.inquiries)
    decreases |es|
  {
    if es != [] {
      var front, e := es[..|es| - 1], es[|es| - 1];
      assert es == front + [e];
      RunAppend(s, front, [e]);
      MirrorsLastRead(s, front);
      assert Run(s, es) == Step(Run(s, front), e);
    }
  }

  lemma {:induction false} LastDeliveredIsDelivered(es: seq<Event>, before: seq<Inquiry>)
    ensures LastDelivered(es, before) == before ||
            exists i :: 0 <= i < |es| && Delivered(es[i]) == Some(LastDelivered(es, before))
    decreases |es|
  {
    if es != [] && Delivered(es[|es| - 1]).None? {
      var front := es[..|es| - 1];
      LastDeliveredIsDelivered(front, before);
      if LastDelivered(front, before) != before {
        var i :| 0 <= i < |front| && Delivered(front[i]) == Some(LastDelivered(front, before));
        assert es[i] == front[i];
      }
    }
  }

  /** Whatever happens, the list is either the one held before or exactly
      the list some successful read returned. */
  lemma NeverPatchedLocally(s: ViewState, es: seq<Event>)
    ensures Run(s, es).inquiries == s.inquiries ||
            exists i :: 0 <= i < |es| && Delivered(es[i]) == Some(Run(s, es).inquiries)
  {
    MirrorsLastRead(s, es);
    LastDeliveredIsDelivered(es, s.inquiries);
  }

  /** Only the user's filter choice changes the selected status. */
  lemma {:induction false} SelectionKeptByHandlers(s: ViewState, es: seq<Event>)
    requires forall i :: 0 <= i < |es| ==> !es[i].FilterChanged?
    ensures Run(s, es).selectedStatus == s.selectedStatus
    decreases |es|
  {
    if es != [] {
      assert !es[0].FilterChanged?;
      assert forall i :: 0 <= i < |es[1..]| ==> es[1..][i] == es[i + 1];
      SelectionKeptByHandlers(Step(s, es[0]), es[1..]);
    }
  }

  /** A read that fails on mount leaves the list empty and clears the flag. */
  lemma FailedFirstRead()
    ensures Run(Init(), [Refresh(FetchFailed)]) == ViewState([], false, All)
  {
  }

  /** What the page shows: the spinner while loading, otherwise the stat
      cards over the whole list and the rows of the current filter. */
  datatype Screen = Spinner | Board(stats: Stats, rows: seq<Inquiry>)

  function Render(s: ViewState): (v: Screen)
    ensures v.Spinner? <==> s.loading
    ensures v.Board? ==> v.stats.total == |s.inquiries| && IsSubsequence(v.rows, s.inquiries)
    ensures v.Board? && s.selectedStatus == All ==> v.rows == s.inquiries
    ensures v.Board? && s.selectedStatus != All ==>
              forall x :: x in v.rows <==> x in s.inquiries && x.status == s.selectedStatus
    ensures v.Board? && s.selectedStatus != All ==>
              forall x :: multiset(v.rows)[x] ==
                           if x.status == s.selectedStatus then multiset(s.inquiries)[x] else 0
  {
    if s.loading then Spinner
    else Board(StatsOf(s.inquiries), Filtered(s.inquiries, s.selectedStatus))
  }

  /** Changing the filter changes the rows only, never the stat cards. */
  lemma FilterLeavesStats(s: ViewState, value: string)
    requires !s.loading
    ensures Render(Step(s, FilterChanged(value))).stats == Render(s).stats
  {
  }

  /** The count on a status card is the number of rows shown when that
      status is selected. */
  lemma CardCountMatchesRows(s: ViewState)
    requires !s.loading && IsKnownStatus(s.selectedStatus)
    ensures var v := Render(s);
            |v.rows| == (if s.selectedStatus == Pending then v.stats.pending
                         else if s.selectedStatus == Approved then v.stats.approved
                         else v.stats.rejected)
  {
  }

  /** The dashboard component: its state fields and the handlers that set them. */
  class Component {
    var inquiries: seq<Inquiry>
    var loading: bool
    var selectedStatus: string

    function State(): ViewState
      reads this
    {
      ViewState(inquiries, loading, selectedStatus)
    }

    constructor ()
      ensures inquiries == [] && loading && selectedStatus == All
      ensures State() == Init()
    {
      inquiries := [];
      loading := true;
      selectedStatus := All;
    }

    /** Reads the collection: replaces the list on success, keeps it on
        failure, and clears the loading flag in both cases. */
    method FetchInquiries(response: FetchResponse) returns (issued: seq<Request>)
      modifies this
      ensures issued == [GetAll] == Requests(Refresh(response))
      ensures response.Fetched? ==> inquiries == response.data
      ensures response.FetchFailed? ==> inquiries == old(inquiries)
      ensures !loading && selectedStatus == old(selectedStatus)
      ensures State() == Step(old(State()), Refresh(response))
    {
      issued := [GetAll];
      match response {
        case Fetched(data) => inquiries := data;
        case FetchFailed =>
      }
      loading := false;
    }

    /** Sends the new status; on success re-reads the collection, on failure
        changes nothing. The local list is never edited directly. */
    method UpdateInquiryStatus(id: string, status: string, patch: MutationResponse, refetch: FetchResponse)
      returns (issued: seq<Request>)
      modifies this
      ensures patch.Succeeded? ==> issued == [Patch(id, status), GetAll]
      ensures patch.Succeeded? ==> State() == AfterFetch(old(State()), refetch)
      ensures patch.MutationFailed? ==> issued == [Patch(id, status)] && unchanged(this)
      ensures issued == Requests(StatusChanged(id, status, patch, refetch))
      ensures State() == Step(old(State()), StatusChanged(id, status, patch, refetch))
    {
      issued := [Patch(id, status)];
      if patch.Succeeded? {
        var more := FetchInquiries(refetch);
        issued := issued + more;
      }
    }

    /** Asks for confirmation; if declined, sends nothing and changes nothing.
        Otherwise deletes, and on success re-reads the collection. */
    method DeleteInquiry(id: string, confirmed: bool, removal: MutationResponse, refetch: FetchResponse)
      returns (issued: seq<Request>)
      modifies this
      ensures !confirmed ==> issued == [] && unchanged(this)
      ensures confirmed && removal.Succeeded? ==> issued == [Delete(id), GetAll]
      ensures confirmed && removal.Succeeded? ==> State() == AfterFetch(old(State()), refetch)
      ensures confirmed && removal.MutationFailed? ==> issued == [Delete(id)] && unchanged(this)
      ensures issued == Requests(DeleteClicked(id, confirmed, removal, refetch))
      ensures State() == Step(old(State()), DeleteClicked(id, confirmed, removal, refetch))
    {
      issued := [];
      if confirmed {
        issued := [Delete(id)];
        if removal.Succeeded? {
          var more := FetchInquiries(refetch);
          issued := issued + more;
        }
      }
    }

    /** The filter drop-down: sets the selected status and nothing else. */
    method SetSelectedStatus(value: string)
      modifies this
      ensures selectedStatus == value
      ensures inquiries == old(inquiries) && loading == old(loading)
      ensures State() == Step(old(State()), FilterChanged(value))
    {
      selectedStatus := value;
    }

    /** Handles one event by calling the handler it triggers. */
    method Handle(e: Event) returns (issued: seq<Request>)
      modifies this
      ensures issued == Requests(e)
      ensures State() == Step(old(State()), e)
    {
      match e {
        case Refresh(r) =>
          issued := FetchInquiries(r);
        case StatusChanged(id, status, patch, refetch) =>
          issued := UpdateInquiryStatus(id, status, patch, refetch);
        case DeleteClicked(id, confirmed, removal, refetch) =>
          issued := DeleteInquiry(id, confirmed, removal, refetch);
        case FilterChanged(v) =>
          SetSelectedStatus(v);
          issued := [];
      }
    }
  }
}
