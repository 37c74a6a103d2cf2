/** The fields and action shapes that the paginated list stores share
    (data categories, user-related offices, sectors, fiscal years, users):
    a list, an error message and three pagination numbers, changed by a
    fetch, by a mutation that refetches, or by a mutation that edits the
    list in place. Each store supplies its own messages and requests. */
module Listing {
  import opened Common

  /** The observable fields of a list store once no call is in flight. */
  datatype View<T> = View(items: seq<T>, error: Option<string>, pagination: Pagination)

  /** What an action leaves behind: its fields, and the failure it rethrows, if any. */
  datatype Settled<T> = Settled(view: View<T>, thrown: Option<Failure>)

  /** The pagination fields never name page 0, and never claim zero pages
      while they count some items. */
  predicate Coherent<T>(v: View<T>)
  {
    v.pagination.currentPage != 0 && (v.pagination.totalItems > 0 ==> v.pagination.totalPages > 0)
  }

  /** The state every paginated store starts in: no items, no error, page 1 of 1. */
  function Initial<T>(): (r: View<T>)
    ensures r.items == [] && r.error == None && r.pagination.totalItems == 0
    ensures Coherent(r)
  {
    View([], None, Pagination(1, 1, 0))
  }

  /** The fields after a fetch whose reply arrived: everything comes from the
      body and the requested page, and the error cleared at the start stays cleared. */
  function Loaded<T>(body: Page<T>, requested: Option<int>): (r: View<T>)
    ensures r.error == None
    ensures body.Paginated? ==> r.items == body.results && r.pagination.totalItems == body.count
    ensures body.Paginated? ==> r.pagination.totalPages * 20 >= body.count
    ensures body.Paginated? && r.pagination.totalPages > 0 ==> (r.pagination.totalPages - 1) * 20 < body.count
    ensures body.Paginated? ==> r.pagination.currentPage == PageOrFirst(requested)
    ensures body.Unpaged? ==> r.items == body.items && r.pagination == Pagination(1, 1, |body.items|)
    ensures Coherent(r)
  {
    var (items, p) := Paged(body, requested);
    View(items, None, p)
  }

  /** A whole fetch: clear the error, ask for a page, then store the reply or
      record `describe(failure)`. A failed fetch keeps the list and the
      pagination and is not rethrown. */
  function Fetched<T>(v: View<T>, requested: Option<int>, reply: Reply<Page<T>>, describe: Failure -> string): (r: View<T>)
    ensures reply.Ok? ==> r == Loaded(reply.body, requested)
    ensures reply.Failed? ==> r.items == v.items && r.pagination == v.pagination
    ensures reply.Failed? ==> r.error == Some(describe(reply.failure))
    ensures Coherent(v) ==> Coherent(r)
  {
    match reply
    case Ok(body) => Loaded(body, requested)
    case Failed(f) => v.(error := Some(describe(f)))
  }

  /** A mutation that refetches when the call succeeds: on failure it records
      `describe(failure)`, keeps the list and the pagination, and rethrows;
      on success the store ends as the refetch leaves it, and a failed
      refetch is swallowed by the fetch. */
  function Refetching<T>(v: View<T>, posted: Outcome, describe: Failure -> string,
                         requested: Option<int>, refetch: Reply<Page<T>>, describeFetch: Failure -> string): (r: Settled<T>)
    ensures posted.Error? ==> r.thrown == Some(posted.failure)
    ensures posted.Error? ==> r.view.items == v.items && r.view.pagination == v.pagination
    ensures posted.Error? ==> r.view.error == Some(describe(posted.failure))
    ensures posted.Done? ==> r.thrown == None && r.view == Fetched(v, requested, refetch, describeFetch)
    ensures Coherent(v) ==> Coherent(r.view)
  {
    match posted
    case Error(f) => Settled(v.(error := Some(describe(f))), Some(f))
    case Done => Settled(Fetched(v.(error := None), requested, refetch, describeFetch), None)
  }

  /** A mutation that edits the list in place when the call succeeds: the
      list becomes `edit(list)`, the pagination is untouched (a local delete
      does not lower `totalItems`), and the error cleared at the start stays
      cleared. On failure it behaves as `Refetching` does. */
  function Edited<T>(v: View<T>, posted: Outcome, describe: Failure -> string, edit: seq<T> -> seq<T>): (r: Settled<T>)
    ensures posted.Error? ==> r.thrown == Some(posted.failure)
    ensures posted.Error? ==> r.view.items == v.items && r.view.pagination == v.pagination
    ensures posted.Error? ==> r.view.error == Some(describe(posted.failure))
    ensures posted.Done? ==> r.thrown == None && r.view.error == None
    ensures posted.Done? ==> r.view.items == edit(v.items) && r.view.pagination == v.pagination
    ensures Coherent(v) ==> Coherent(r.view)
  {
    match posted
    case Error(f) => Settled(v.(error := Some(describe(f))), Some(f))
    case Done => Settled(View(edit(v.items), None, v.pagination), None)
  }

  /** Refetching the page the store is on, with a paginated reply, stays on
      that page: the delete/approve/reject policy of the sectors, fiscal-year
      and user stores. */
  lemma RefetchCurrentPageStays<T>(v: View<T>, describe: Failure -> string, results: seq<T>, count: nat, describeFetch: Failure -> string)
    requires Coherent(v)
    ensures Refetching(v, Done, describe, Some(v.pagination.currentPage), Ok(Paginated(results, count)), describeFetch).view.pagination.currentPage
            == v.pagination.currentPage
  {
  }

  /** Refetching without a page number lands on page 1, whatever page the
      store was on: the create/update policy of the sector and fiscal-year stores. */
  lemma RefetchWithoutPageShowsFirst<T>(v: View<T>, describe: Failure -> string, body: Page<T>, describeFetch: Failure -> string)
    ensures Refetching(v, Done, describe, None, Ok(body), describeFetch).view.pagination.currentPage == 1
  {
  }

  /** A failed mutation, refetching or not, leaves the same fields behind and
      rethrows the same failure. */
  lemma FailedMutationsAgree<T>(v: View<T>, f: Failure, describe: Failure -> string, requested: Option<int>,
                                refetch: Reply<Page<T>>, describeFetch: Failure -> string, edit: seq<T> -> seq<T>)
    ensures Refetching(v, Error(f), describe, requested, refetch, describeFetch) == Edited(v, Error(f), describe, edit)
  {
  }
}
