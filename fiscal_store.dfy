/** The fiscal-year store (src/pages/fiscal_year/store/useFiscalStore.ts).
    It follows the sector store's refetch policy; its create error also
    consults the server's validation message for the `year` field. */
module FiscalYears {
  import opened Common
  import opened Listing

  datatype FiscalYear = FiscalYear(
    id: int, year: string, status: Status, createdBy: int, createdByName: string,
    approvedBy: Option<int>, approvedByName: Option<string>, approvedAt: Option<string>,
    createdAt: string, updatedAt: string)

  /** The `fetchFiscalYears` parameters: a status filter and a page. */
  datatype FiscalQuery = FiscalQuery(status: Option<Status>, page: Option<int>)

  /** The requests the store sends: GET /fiscal-years/, POST /fiscal-years/
      with `{ year }`, PATCH /fiscal-years/{id}/ with `{ year }`,
      DELETE /fiscal-years/{id}/, POST /fiscal-years/{id}/approve/ and
      POST /fiscal-years/{id}/reject/. */
  datatype Request =
    | List(query: FiscalQuery)
    | Create(year: string)
    | Update(id: int, year: string)
    | Delete(id: int)
    | Approve(id: int)
    | Reject(id: int)

  /** `fetchFiscalYears()`: no parameters at all. */
  function NoParams(): FiscalQuery
  {
    FiscalQuery(None, None)
  }

  /** `fetchFiscalYears({ page })` */
  function AtPage(page: int): FiscalQuery
  {
    FiscalQuery(None, Some(page))
  }

  /** `error.response?.data?.year?.[0]` */
  function FirstYearError(f: Failure): Option<string>
  {
    if |f.yearErrors| > 0 then Some(f.yearErrors[0]) else None
  }

  /** The create error: `detail`, else the first `year` validation message,
      else the transport message, else the default. */
  function CreateFailure(f: Failure): (r: string)
    ensures Truthy(f.detail) ==> r == f.detail.value
    ensures !Truthy(f.detail) && |f.yearErrors| > 0 && f.yearErrors[0] != "" ==> r == f.yearErrors[0]
    ensures !Truthy(f.detail) && (|f.yearErrors| == 0 || f.yearErrors[0] == "") && Truthy(f.message) ==> r == f.message.value
    ensures (!Truthy(f.detail) && (|f.yearErrors| == 0 || f.yearErrors[0] == "") && !Truthy(f.message))
              ==> r == "Failed to create fiscal year"
  {
    if Truthy(f.detail) then f.detail.value
    else if Truthy(FirstYearError(f)) then FirstYearError(f).value
    else MessageOr(f, "Failed to create fiscal year")
  }

  function FetchFailure(f: Failure): string { MessageOr(f, "Failed to fetch fiscal years") }
  function UpdateFailure(f: Failure): string { DetailOrMessage(f, "Failed to update fiscal year") }
  function DeleteFailure(f: Failure): string { MessageOr(f, "Failed to delete fiscal year") }
  function ApproveFailure(f: Failure): string { MessageOr(f, "Failed to approve fiscal year") }
  function RejectFailure(f: Failure): string { MessageOr(f, "Failed to reject fiscal year") }

  /** Only create looks at the `year` messages: the same failure can read
      differently on create and on update. */
  lemma YearErrorsOnlyOnCreate(f: Failure)
    requires !Truthy(f.detail) && |f.yearErrors| > 0 && f.yearErrors[0] != ""
    ensures CreateFailure(f) == f.yearErrors[0]
    ensures UpdateFailure(f) == (if Truthy(f.message) then f.message.value else "Failed to update fiscal year")
  {
  }

  class FiscalStore {
    var fiscalYears: seq<FiscalYear>
    var isLoading: bool
    var error: Option<string>
    var currentPage: int
    var totalPages: nat
    var totalItems: nat
    /** Every request sent so far, oldest first. */
    var sent: seq<Request>

    function State(): View<FiscalYear>
      reads this
    {
      View(fiscalYears, error, Pagination(currentPage, totalPages, totalItems))
    }

    predicate Valid()
      reads this
    {
      Coherent(State())
    }

    constructor ()
      ensures State() == Initial() && sent == []
      ensures Valid() && !isLoading
    {
      fiscalYears := [];
      isLoading := false;
      error := None;
      currentPage := 1;
      totalPages := 1;
      totalItems := 0;
      sent := [];
    }

    /** Overwrites the list, error and pagination fields with `v`. */
    method Show(v: View<FiscalYear>)
      modifies this
      ensures State() == v
      ensures isLoading == old(isLoading) && sent == old(sent)
    {
      fiscalYears := v.items;
      error := v.error;
      currentPage := v.pagination.currentPage;
      totalPages := v.pagination.totalPages;
      totalItems := v.pagination.totalItems;
    }

    /** `fetchFiscalYears(params)` answered by `reply`. */
    method FetchFiscalYears(params: FiscalQuery, reply: Reply<Page<FiscalYear>>)
      requires Valid()
      modifies this
      ensures Valid() && !isLoading
      ensures State() == Fetched(old(State()), params.page, reply, FetchFailure)
      ensures sent == old(sent) + [List(params)]
    {
      isLoading := true;
      error := None;
      sent := sent + [List(params)];
      match reply {
        case Ok(body) =>
          Show(Loaded(body, params.page));
        case Failed(f) =>
          error := Some(FetchFailure(f));
      }
      isLoading := false;
    }

    /** The shared body of the five mutations: send `request`; on success
        refetch with `query`, on failure record `describe(failure)` and rethrow. */
    method Mutate(request: Request, posted: Outcome, describe: Failure -> string,
                  query: FiscalQuery, refetch: Reply<Page<FiscalYear>>) returns (thrown: Option<Failure>)
      requires Valid()
      modifies this
      ensures Valid() && !isLoading
      ensures Settled(State(), thrown) == Refetching(old(State()), posted, describe, query.page, refetch, FetchFailure)
      ensures sent == old(sent) + [request] + (if posted.Done? then [List(query)] else [])
    {
      isLoading := true;
      error := None;
      sent := sent + [request];
      match posted {
        case Error(f) =>
          error := Some(describe(f));
          thrown := Some(f);
        case Done =>
          FetchFiscalYears(query, refetch);
          thrown := None;
      }
      isLoading := false;
    }

    /** `createFiscalYear(year)`: refetches with no parameters, so page 1. */
    method CreateFiscalYear(year: string, posted: Outcome, refetch: Reply<Page<FiscalYear>>) returns (thrown: Option<Failure>)
      requires Valid()
      modifies this
      ensures Valid() && !isLoading
      ensures Settled(State(), thrown) == Refetching(old(State()), posted, CreateFailure, None, refetch, FetchFailure)
      ensures sent == old(sent) + [Create(year)] + (if posted.Done? then [List(NoParams())] else [])
    {
      thrown := Mutate(Create(year), posted, CreateFailure, NoParams(), refetch);
    }

    /** `updateFiscalYear(id, year)`: refetches with no parameters, so page 1. */
    method UpdateFiscalYear(id: int, year: string, posted: Outcome, refetch: Reply<Page<FiscalYear>>) returns (thrown: Option<Failure>)
      requires Valid()
      modifies this
      ensures Valid() && !isLoading
      ensures Settled(State(), thrown) == Refetching(old(State()), posted, UpdateFailure, None, refetch, FetchFailure)
      ensures sent == old(sent) + [Update(id, year)] + (if posted.Done? then [List(NoParams())] else [])
    {
      thrown := Mutate(Update(id, year), posted, UpdateFailure, NoParams(), refetch);
    }

    /** `deleteFiscalYear(id)`: refetches the current page. */
    method DeleteFiscalYear(id: int, posted: Outcome, refetch: Reply<Page<FiscalYear>>) returns (thrown: Option<Failure>)
      requires Valid()
      modifies this
      ensures Valid() && !isLoading
      ensures Settled(State(), thrown) == Refetching(old(State()), posted, DeleteFailure, Some(old(currentPage)), refetch, FetchFailure)
      ensures sent == old(sent) + [Delete(id)] + (if posted.Done? then [List(AtPage(old(currentPage)))] else [])
    {
      thrown := Mutate(Delete(id), posted, DeleteFailure, AtPage(currentPage), refetch);
    }

    /** `approveFiscalYear(id)`: the server sets the status; the store refetches the current page. */
    method ApproveFiscalYear(id: int, posted: Outcome, refetch: Reply<Page<FiscalYear>>) returns (thrown: Option<Failure>)
      requires Valid()
      modifies this
      ensures Valid() && !isLoading
      ensures Settled(State(), thrown) == Refetching(old(State()), posted, ApproveFailure, Some(old(currentPage)), refetch, FetchFailure)
      ensures sent == old(sent) + [Approve(id)] + (if posted.Done? then [List(AtPage(old(currentPage)))] else [])
    {
      thrown := Mutate(Approve(id), posted, ApproveFailure, AtPage(currentPage), refetch);
    }

    /** `rejectFiscalYear(id)`: the server sets the status; the store refetches the current page. */
    method RejectFiscalYear(id: int, posted: Outcome, refetch: Reply<Page<FiscalYear>>) returns (thrown: Option<Failure>)
      requires Valid()
      modifies this
      ensures Valid() && !isLoading
      ensures Settled(State(), thrown) == Refetching(old(State()), posted, RejectFailure, Some(old(currentPage)), refetch, FetchFailure)
      ensures sent == old(sent) + [Reject(id)] + (if posted.Done? then [List(AtPage(old(currentPage)))] else [])
    {
      thrown := Mutate(Reject(id), posted, RejectFailure, AtPage(currentPage), refetch);
    }
  }

  /** A year rejected by validation: the create records the first `year`
      message, rethrows, and sends no refetch. */
  method DuplicateYearIsReported() returns (error: Option<string>, thrown: Option<Failure>, requests: seq<Request>)
    ensures error == Some("fiscal year with this year already exists.")
    ensures thrown.Some?
    ensures requests == [Create("2081/82")]
  {
    var store := new FiscalStore();
    var f := Failure(None, ["fiscal year with this year already exists."], Some("Request failed with status code 400"));
    thrown := store.CreateFiscalYear("2081/82", Error(f), Ok(Unpaged([])));
    error := store.error;
    requests := store.sent;
  }
}
