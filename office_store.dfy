/** The user-related-office store (src/store/useUserRelatedOfficeStore.ts).
    Create refetches the first page; update, delete, approve and reject edit
    the loaded list in place once the server has accepted the call. */
module Offices {
  import opened Common
  import opened Listing
  import Lists

  datatype Office = Office(
    id: int, office: string, status: Status, createdAt: string, updatedAt: string,
    createdBy: Option<int>, createdByName: Option<string>,
    approvedBy: Option<int>, approvedByName: Option<string>)

  /** The `fetchUserRelatedOffices` parameters. */
  datatype OfficeQuery = OfficeQuery(status: Option<string>, search: Option<string>, page: Option<int>)

  /** The requests the store sends: GET and POST /user-related-offices/,
      PATCH and DELETE /user-related-offices/{id}/, and POST
      /user-related-offices/{id}/approve/ and .../reject/. */
  datatype Request =
    | List(query: OfficeQuery)
    | Create(office: string)
    | Update(id: int, office: string)
    | Delete(id: int)
    | Approve(id: int)
    | Reject(id: int)

  /** `fetchUserRelatedOffices()`: no parameters at all. */
  function NoParams(): OfficeQuery
  {
    OfficeQuery(None, None, None)
  }

  function IdOf(o: Office): int { o.id }

  /** `o => ({ ...o, office: name })` */
  function SetName(name: string): Office -> Office
  {
    (o: Office) => o.(office := name)
  }

  /** `o => ({ ...o, status })` */
  function SetStatus(status: Status): Office -> Office
  {
    (o: Office) => o.(status := status)
  }

  /** `offices.map(o => o.id === id ? { ...o, ...data } : o)` with `data = { office }`:
      the matching offices are renamed, nothing else changes. */
  function Renamed(offices: seq<Office>, id: int, name: string): (r: seq<Office>)
    ensures |r| == |offices|
    ensures forall i :: 0 <= i < |offices| && offices[i].id == id ==> r[i] == offices[i].(office := name)
    ensures forall i :: 0 <= i < |offices| && offices[i].id != id ==> r[i] == offices[i]
  {
    Lists.UpdateId(offices, id, IdOf, SetName(name))
  }

  /** `offices.map(o => o.id === id ? { ...o, status } : o)`: the approve and
      reject edits. Only the status of the matching offices changes. */
  function WithStatus(offices: seq<Office>, id: int, status: Status): (r: seq<Office>)
    ensures |r| == |offices|
    ensures forall i :: 0 <= i < |offices| ==> r[i].(status := offices[i].status) == offices[i]
    ensures forall i :: 0 <= i < |offices| ==> r[i].status == (if offices[i].id == id then status else offices[i].status)
  {
    Lists.UpdateId(offices, id, IdOf, SetStatus(status))
  }

  /** `offices.filter(o => o.id !== id)` */
  function Without(offices: seq<Office>, id: int): (r: seq<Office>)
    ensures forall o :: o in r <==> o in offices && o.id != id
  {
    Lists.RemoveId(offices, id, IdOf)
  }

  /** Approving and then rejecting the same office leaves it rejected, as if
      it had only been rejected. */
  lemma LastDecisionWins(offices: seq<Office>, id: int, first: Status, last: Status)
    ensures WithStatus(WithStatus(offices, id, first), id, last) == WithStatus(offices, id, last)
  {
    Lists.UpdateIdOverwrite(offices, id, IdOf, SetStatus(first), SetStatus(last));
  }

  /** Deleting an office that was renamed or re-statused leaves the same
      list as deleting it straight away. */
  lemma DeleteForgetsEdits(offices: seq<Office>, id: int, name: string, status: Status)
    ensures Without(Renamed(offices, id, name), id) == Without(offices, id)
    ensures Without(WithStatus(offices, id, status), id) == Without(offices, id)
  {
    Lists.RemoveAfterUpdate(offices, id, IdOf, SetName(name));
    Lists.RemoveAfterUpdate(offices, id, IdOf, SetStatus(status));
  }

  /** The in-place edits keep the loaded offices' ids distinct. */
  lemma EditsKeepIdsDistinct(offices: seq<Office>, id: int, name: string, status: Status)
    requires Lists.DistinctBy(offices, IdOf)
    ensures Lists.DistinctBy(Renamed(offices, id, name), IdOf)
    ensures Lists.DistinctBy(WithStatus(offices, id, status), IdOf)
    ensures Lists.DistinctBy(Without(offices, id), IdOf)
  {
    Lists.UpdateIdKeepsDistinct(offices, id, IdOf, SetName(name));
    Lists.UpdateIdKeepsDistinct(offices, id, IdOf, SetStatus(status));
    Lists.RemoveIdKeepsDistinct(offices, id, IdOf);
  }

  function FetchFailure(f: Failure): string { MessageOr(f, "Failed to fetch user related offices") }
  function CreateFailure(f: Failure): string { DetailOrMessage(f, "Failed to create office") }
  function UpdateFailure(f: Failure): string { DetailOrMessage(f, "Failed to update office") }
  function DeleteFailure(f: Failure): string { MessageOr(f, "Failed to delete office") }
  function ApproveFailure(f: Failure): string { MessageOr(f, "Failed to approve office") }
  function RejectFailure(f: Failure): string { MessageOr(f, "Failed to reject office") }

  class OfficeStore {
    var offices: seq<Office>
    var isLoading: bool
    var error: Option<string>
    var currentPage: int
    var totalPages: nat
    var totalItems: nat
    /** Every request sent so far, oldest first. */
    var sent: seq<Request>

    function State(): View<Office>
      reads this
    {
      View(offices, error, Pagination(currentPage, totalPages, totalItems))
    }

    predicate Valid()
      reads this
    {
      Coherent(State())
    }

    constructor ()
      ensures State() == Initial() && sent == []
      ensures Valid() && !isLoading
    {
      offices := [];
      isLoading := false;
      error := None;
      currentPage := 1;
      totalPages := 1;
      totalItems := 0;
      sent := [];
    }

    /** Overwrites the list, error and pagination fields with `v`. */
    method Show(v: View<Office>)
      modifies this
      ensures State() == v
      ensures isLoading == old(isLoading) && sent == old(sent)
    {
      offices := v.items;
      error := v.error;
      currentPage := v.pagination.currentPage;
      totalPages := v.pagination.totalPages;
      totalItems := v.pagination.totalItems;
    }

    /** `fetchUserRelatedOffices(params)` answered by `reply`. */
    method FetchOffices(params: OfficeQuery, reply: Reply<Page<Office>>)
      requires Valid()
      modifies this
      ensures Valid() && !isLoading
      ensures State() == Fetched(old(State()), params.page, reply, FetchFailure)
      ensures sent == old(sent) + [List(params)]
    {
      isLoading := true;
      error := None;
      sent := sent + [List(params)];
      match reply {
        case Ok(body) =>
          Show(Loaded(body, params.page));
        case Failed(f) =>
          error := Some(FetchFailure(f));
      }
      isLoading := false;
    }

    /** `createOffice({ office })`: refetches with no parameters. */
    method CreateOffice(name: string, posted: Outcome, refetch: Reply<Page<Office>>) returns (thrown: Option<Failure>)
      requires Valid()
      modifies this
      ensures Valid() && !isLoading
      ensures Settled(State(), thrown) == Refetching(old(State()), posted, CreateFailure, None, refetch, FetchFailure)
      ensures sent == old(sent) + [Create(name)] + (if posted.Done? then [List(NoParams())] else [])
    {
      isLoading := true;
      error := None;
      sent := sent + [Create(name)];
      match posted {
        case Error(f) =>
          error := Some(CreateFailure(f));
          thrown := Some(f);
        case Done =>
          FetchOffices(NoParams(), refetch);
          thrown := None;
      }
      isLoading := false;
    }

    /** The shared body of the four in-place mutations: send `request`; on
        success replace the list by `edit(list)`, on failure record
        `describe(failure)` and rethrow. */
    method Edit(request: Request, posted: Outcome, describe: Failure -> string, edit: seq<Office> -> seq<Office>)
      returns (thrown: Option<Failure>)
      requires Valid()
      modifies this
      ensures Valid() && !isLoading
      ensures Settled(State(), thrown) == Edited(old(State()), posted, describe, edit)
      ensures sent == old(sent) + [request]
    {
      isLoading := true;
      error := None;
      sent := sent + [request];
      match posted {
        case Error(f) =>
          error := Some(describe(f));
          thrown := Some(f);
        case Done =>
          offices := edit(offices);
          thrown := None;
      }
      isLoading := false;
    }

    /** `updateOffice(id, { office })` */
    method UpdateOffice(id: int, name: string, posted: Outcome) returns (thrown: Option<Failure>)
      requires Valid()
      modifies this
      ensures Valid() && !isLoading
      ensures Settled(State(), thrown) == Edited(old(State()), posted, UpdateFailure, s => Renamed(s, id, name))
      ensures sent == old(sent) + [Update(id, name)]
    {
      thrown := Edit(Update(id, name), posted, UpdateFailure, s => Renamed(s, id, name));
    }

    /** `deleteOffice(id)` */
    method DeleteOffice(id: int, posted: Outcome) returns (thrown: Option<Failure>)
      requires Valid()
      modifies this
      ensures Valid() && !isLoading
      ensures Settled(State(), thrown) == Edited(old(State()), posted, DeleteFailure, s => Without(s, id))
      ensures sent == old(sent) + [Delete(id)]
    {
      thrown := Edit(Delete(id), posted, DeleteFailure, s => Without(s, id));
    }

    /** `approveOffice(id)` */
    method ApproveOffice(id: int, posted: Outcome) returns (thrown: Option<Failure>)
      requires Valid()
      modifies this
      ensures Valid() && !isLoading
      ensures Settled(State(), thrown) == Edited(old(State()), posted, ApproveFailure, s => WithStatus(s, id, Approved))
      ensures sent == old(sent) + [Approve(id)]
    {
      thrown := Edit(Approve(id), posted, ApproveFailure, s => WithStatus(s, id, Approved));
    }

    /** `rejectOffice(id)` */
    method RejectOffice(id: int, posted: Outcome) returns (thrown: Option<Failure>)
      requires Valid()
      modifies this
      ensures Valid() && !isLoading
      ensures Settled(State(), thrown) == Edited(old(State()), posted, RejectFailure, s => WithStatus(s, id, Rejected))
      ensures sent == old(sent) + [Reject(id)]
    {
      thrown := Edit(Reject(id), posted, RejectFailure, s => WithStatus(s, id, Rejected));
    }
  }
}
