/** The sector store (src/pages/sectors/store/useSectorStore.ts). Every
    mutation refetches: create and update ask for the first page again,
    delete, approve and reject ask for the page the store is on. */
module Sectors {
  import opened Common
  import opened Listing

  datatype Sector = Sector(
    id: int, name: string, description: string, hasDifferentReport: bool, status: Status,
    createdBy: int, createdByName: string, approvedBy: Option<int>, approvedByName: Option<string>,
    approvedAt: Option<string>, createdAt: string, updatedAt: string)

  /** The `fetchSectors` parameters; an absent one is left out of the query string. */
  datatype SectorQuery = SectorQuery(status: Option<string>, search: Option<string>, page: Option<int>)

  datatype NewSector = NewSector(name: string, description: string, hasDifferentReport: bool)

  datatype SectorPatch = SectorPatch(name: Option<string>, description: Option<string>, hasDifferentReport: Option<bool>)

  /** The requests the store sends: GET /sectors/, POST /sectors/,
      PATCH /sectors/{id}/, DELETE /sectors/{id}/, POST /sectors/{id}/approve/
      and POST /sectors/{id}/reject/. */
  datatype Request =
    | List(query: SectorQuery)
    | Create(data: NewSector)
    | Update(id: int, patch: SectorPatch)
    | Delete(id: int)
    | Approve(id: int)
    | Reject(id: int)

  /** `fetchSectors()`: no parameters at all. */
  function NoParams(): SectorQuery
  {
    SectorQuery(None, None, None)
  }

  /** `fetchSectors({ page })` */
  function AtPage(page: int): SectorQuery
  {
    SectorQuery(None, None, Some(page))
  }

  function FetchFailure(f: Failure): string { MessageOr(f, "Failed to fetch sectors") }
  function CreateFailure(f: Failure): string { DetailOrMessage(f, "Failed to create sector") }
  function UpdateFailure(f: Failure): string { DetailOrMessage(f, "Failed to update sector") }
  function DeleteFailure(f: Failure): string { MessageOr(f, "Failed to delete sector") }
  function ApproveFailure(f: Failure): string { MessageOr(f, "Failed to approve sector") }
  function RejectFailure(f: Failure): string { MessageOr(f, "Failed to reject sector") }

  /** Create and update prefer the server's `detail` over the transport
      message; delete, approve and reject never look at `detail`. */
  lemma CreateAndUpdatePreferDetail(f: Failure)
    requires Truthy(f.detail)
    ensures CreateFailure(f) == f.detail.value && UpdateFailure(f) == f.detail.value
    ensures Truthy(f.message) ==> DeleteFailure(f) == f.message.value && ApproveFailure(f) == f.message.value
                                  && RejectFailure(f) == f.message.value
    ensures !Truthy(f.message) ==> DeleteFailure(f) == "Failed to delete sector"
  {
  }

  class SectorStore {
    var sectors: seq<Sector>
    var isLoading: bool
    var error: Option<string>
    var currentPage: int
    var totalPages: nat
    var totalItems: nat
    /** Every request sent so far, oldest first. */
    var sent: seq<Request>

    function State(): View<Sector>
      reads this
    {
      View(sectors, error, Pagination(currentPage, totalPages, totalItems))
    }

    predicate Valid()
      reads this
    {
      Coherent(State())
    }

    constructor ()
      ensures State() == Initial() && sent == []
      ensures Valid() && !isLoading
    {
      sectors := [];
      isLoading := false;
      error := None;
      currentPage := 1;
      totalPages := 1;
      totalItems := 0;
      sent := [];
    }

    /** Overwrites the list, error and pagination fields with `v`. */
    method Show(v: View<Sector>)
      modifies this
      ensures State() == v
      ensures isLoading == old(isLoading) && sent == old(sent)
    {
      sectors := v.items;
      error := v.error;
      currentPage := v.pagination.currentPage;
      totalPages := v.pagination.totalPages;
      totalItems := v.pagination.totalItems;
    }

    /** `fetchSectors(params)` answered by `reply`. */
    method FetchSectors(params: SectorQuery, reply: Reply<Page<Sector>>)
      requires Valid()
      modifies this
      ensures Valid() && !isLoading
      ensures State() == Fetched(old(State()), params.page, reply, FetchFailure)
      ensures sent == old(sent) + [List(params)]
    {
      isLoading := true;
      error := None;
      sent := sent + [List(params)];
      match reply {
        case Ok(body) =>
          Show(Loaded(body, params.page));
        case Failed(f) =>
          error := Some(FetchFailure(f));
      }
      isLoading := false;
    }

    /** The shared body of the five mutations: send `request`; on success
        refetch with `query`, on failure record `describe(failure)` and rethrow. */
    method Mutate(request: Request, posted: Outcome, describe: Failure -> string,
                  query: SectorQuery, refetch: Reply<Page<Sector>>) returns (thrown: Option<Failure>)
      requires Valid()
      modifies this
      ensures Valid() && !isLoading
      ensures Settled(State(), thrown) == Refetching(old(State()), posted, describe, query.page, refetch, FetchFailure)
      ensures sent == old(sent) + [request] + (if posted.Done? then [List(query)] else [])
    {
      isLoading := true;
      error := None;
      sent := sent + [request];
      match posted {
        case Error(f) =>
          error := Some(describe(f));
          thrown := Some(f);
        case Done =>
          FetchSectors(query, refetch);
          thrown := None;
      }
      isLoading := false;
    }

    /** `createSector(data)`: refetches with no parameters, so page 1. */
    method CreateSector(data: NewSector, posted: Outcome, refetch: Reply<Page<Sector>>) returns (thrown: Option<Failure>)
      requires Valid()
      modifies this
      ensures Valid() && !isLoading
      ensures Settled(State(), thrown) == Refetching(old(State()), posted, CreateFailure, None, refetch, FetchFailure)
      ensures sent == old(sent) + [Create(data)] + (if posted.Done? then [List(NoParams())] else [])
    {
      thrown := Mutate(Create(data), posted, CreateFailure, NoParams(), refetch);
    }

    /** `updateSector(id, data)`: refetches with no parameters, so page 1. */
    method UpdateSector(id: int, data: SectorPatch, posted: Outcome, refetch: Reply<Page<Sector>>) returns (thrown: Option<Failure>)
      requires Valid()
      modifies this
      ensures Valid() && !isLoading
      ensures Settled(State(), thrown) == Refetching(old(State()), posted, UpdateFailure, None, refetch, FetchFailure)
      ensures sent == old(sent) + [Update(id, data)] + (if posted.Done? then [List(NoParams())] else [])
    {
      thrown := Mutate(Update(id, data), posted, UpdateFailure, NoParams(), refetch);
    }

    /** `deleteSector(id)`: refetches the current page. */
    method DeleteSector(id: int, posted: Outcome, refetch: Reply<Page<Sector>>) returns (thrown: Option<Failure>)
      requires Valid()
      modifies this
      ensures Valid() && !isLoading
      ensures Settled(State(), thrown) == Refetching(old(State()), posted, DeleteFailure, Some(old(currentPage)), refetch, FetchFailure)
      ensures sent == old(sent) + [Delete(id)] + (if posted.Done? then [List(AtPage(old(currentPage)))] else [])
    {
      thrown := Mutate(Delete(id), posted, DeleteFailure, AtPage(currentPage), refetch);
    }

    /** `approveSector(id)`: the server sets the status; the store refetches the current page. */
    method ApproveSector(id: int, posted: Outcome, refetch: Reply<Page<Sector>>) returns (thrown: Option<Failure>)
      requires Valid()
      modifies this
      ensures Valid() && !isLoading
      ensures Settled(State(), thrown) == Refetching(old(State()), posted, ApproveFailure, Some(old(currentPage)), refetch, FetchFailure)
      ensures sent == old(sent) + [Approve(id)] + (if posted.Done? then [List(AtPage(old(currentPage)))] else [])
    {
      thrown := Mutate(Approve(id), posted, ApproveFailure, AtPage(currentPage), refetch);
    }

    /** `rejectSector(id)`: the server sets the status; the store refetches the current page. */
    method RejectSector(id: int, posted: Outcome, refetch: Reply<Page<Sector>>) returns (thrown: Option<Failure>)
      requires Valid()
      modifies this
      ensures Valid() && !isLoading
      ensures Settled(State(), thrown) == Refetching(old(State()), posted, RejectFailure, Some(old(currentPage)), refetch, FetchFailure)
      ensures sent == old(sent) + [Reject(id)] + (if posted.Done? then [List(AtPage(old(currentPage)))] else [])
    {
      thrown := Mutate(Reject(id), posted, RejectFailure, AtPage(currentPage), refetch);
    }
  }

  /** After deleting a sector on page 3 and getting a paginated page back,
      the store is still on page 3; after creating one it is on page 1. */
  method DeleteKeepsPageCreateResets() returns (pageAfterDelete: int, pageAfterCreate: int, requests: seq<Request>)
    ensures pageAfterDelete == 3 && pageAfterCreate == 1
    ensures requests == [List(AtPage(3)), Delete(7), List(AtPage(3)), Create(NewSector("Energy", "", false)), List(NoParams())]
  {
    var store := new SectorStore();
    store.FetchSectors(AtPage(3), Ok(Paginated([], 60)));
    var t1 := store.DeleteSector(7, Done, Ok(Paginated([], 59)));
    pageAfterDelete := store.currentPage;
    var t2 := store.CreateSector(NewSector("Energy", "", false), Done, Ok(Paginated([], 60)));
    pageAfterCreate := store.currentPage;
    requests := store.sent;
  }
}
