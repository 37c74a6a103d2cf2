/** The data-category store (src/pages/data_categories/store/useDataCategoryStore.ts).
    Create refetches the categories of the new category's sector; update,
    delete, approve and reject edit the loaded list in place once the
    server has accepted the call. */
module DataCategories {
  import opened Common
  import opened Listing
  import Lists

  /** The fields the server computes for display and audit; the store copies
      them around but never changes them. */
  datatype Audit = Audit(
    parentName: Option<string>, sectorName: string, relatedOfficeName: Option<string>,
    createdBy: int, createdByName: string, approvedBy: Option<int>, approvedByName: Option<string>,
    approvedAt: Option<string>, createdAt: string, updatedAt: string, remarks: Option<string>)

  datatype DataCategory = DataCategory(
    id: int, sector: int, name: string, parent: Option<int>, unit: string,
    isSummable: bool, relatedOffice: Option<int>, status: Status, audit: Audit)

  /** The `fetchDataCategories` parameters. The sector filter accepts a
      number or a string in the source; the model carries the number. */
  datatype CategoryQuery = CategoryQuery(sector: Option<int>, status: Option<string>, search: Option<string>, page: Option<int>)

  /** A `parent` or `related_office` value in a payload: an id, null, or a
      string (the form sends "" for "none"). */
  datatype Ref = RefId(id: int) | RefNull | RefText(text: string)

  datatype NewCategory = NewCategory(
    sector: int, name: string, parent: Option<Ref>, unit: string, isSummable: bool,
    relatedOffice: Option<Ref>, status: Option<Status>)

  /** `UpdateDataCategoryPayload`: an absent field is None. */
  datatype CategoryPatch = CategoryPatch(
    name: Option<string>, parent: Option<Ref>, unit: Option<string>, isSummable: Option<bool>,
    relatedOffice: Option<Ref>)

  /** The patch after normalisation, as merged into the loaded list: a
      present `parent` or `relatedOffice` is an id or null. */
  datatype LocalPatch = LocalPatch(
    name: Option<string>, parent: Option<Option<int>>, unit: Option<string>, isSummable: Option<bool>,
    relatedOffice: Option<Option<int>>)

  /** The requests the store sends: GET and POST /data-categories/, PATCH and
      DELETE /data-categories/{id}/, and POST /data-categories/{id}/approve/
      and .../reject/. */
  datatype Request =
    | List(query: CategoryQuery)
    | Create(data: NewCategory)
    | Update(id: int, patch: CategoryPatch)
    | Delete(id: int)
    | Approve(id: int)
    | Reject(id: int)

  /** `fetchDataCategories({ sector })` */
  function InSector(sector: int): CategoryQuery
  {
    CategoryQuery(Some(sector), None, None, None)
  }

  function IdOf(c: DataCategory): int { c.id }

  /** A string reference becomes null; ids and null are kept. */
  function LocalRef(r: Ref): (v: Option<int>)
    ensures r.RefId? <==> v.Some?
    ensures r.RefId? ==> v == Some(r.id)
  {
    match r
    case RefId(n) => Some(n)
    case RefNull => None
    case RefText(_) => None
  }

  /** The normalisation before the local merge: `typeof parent === 'string'`
      and `typeof related_office === 'string'` become null; every other field,
      and the presence of each field, is kept. */
  function Normalized(p: CategoryPatch): (r: LocalPatch)
    ensures r.name == p.name && r.unit == p.unit && r.isSummable == p.isSummable
    ensures r.parent.Some? <==> p.parent.Some?
    ensures r.relatedOffice.Some? <==> p.relatedOffice.Some?
    ensures p.parent.Some? && p.parent.value.RefText? ==> r.parent == Some(None)
    ensures p.relatedOffice.Some? && p.relatedOffice.value.RefText? ==> r.relatedOffice == Some(None)
    ensures p.parent.Some? && p.parent.value.RefId? ==> r.parent == Some(Some(p.parent.value.id))
    ensures p.relatedOffice.Some? && p.relatedOffice.value.RefId? ==> r.relatedOffice == Some(Some(p.relatedOffice.value.id))
  {
    LocalPatch(
      p.name,
      if p.parent.Some? then Some(LocalRef(p.parent.value)) else None,
      p.unit,
      p.isSummable,
      if p.relatedOffice.Some? then Some(LocalRef(p.relatedOffice.value)) else None)
  }

  /** `{ ...c, ...patch }`: each field present in the patch replaces the
      category's; the id, sector, status and server-computed fields stay. */
  function Merged(c: DataCategory, p: LocalPatch): (r: DataCategory)
    ensures r.id == c.id && r.sector == c.sector && r.status == c.status && r.audit == c.audit
    ensures r.name == (if p.name.Some? then p.name.value else c.name)
    ensures r.parent == (if p.parent.Some? then p.parent.value else c.parent)
    ensures r.unit == (if p.unit.Some? then p.unit.value else c.unit)
    ensures r.isSummable == (if p.isSummable.Some? then p.isSummable.value else c.isSummable)
    ensures r.relatedOffice == (if p.relatedOffice.Some? then p.relatedOffice.value else c.relatedOffice)
  {
    c.(name := if p.name.Some? then p.name.value else c.name,
       parent := if p.parent.Some? then p.parent.value else c.parent,
       unit := if p.unit.Some? then p.unit.value else c.unit,
       isSummable := if p.isSummable.Some? then p.isSummable.value else c.isSummable,
       relatedOffice := if p.relatedOffice.Some? then p.relatedOffice.value else c.relatedOffice)
  }

  /** Merging the same patch twice is merging it once, and an empty patch changes nothing. */
  lemma MergeIdempotent(c: DataCategory, p: LocalPatch)
    ensures Merged(Merged(c, p), p) == Merged(c, p)
    ensures Merged(c, LocalPatch(None, None, None, None, None)) == c
  {
  }

  /** `c => ({ ...c, ...normalizedData })` */
  function MergeWith(p: LocalPatch): DataCategory -> DataCategory
  {
    (c: DataCategory) => Merged(c, p)
  }

  /** `c => ({ ...c, status })` */
  function SetStatus(status: Status): DataCategory -> DataCategory
  {
    (c: DataCategory) => c.(status := status)
  }

  /** The list after a successful update: the matching categories are merged
      with the normalised patch, the others keep their place and value. */
  function Patched(categories: seq<DataCategory>, id: int, data: CategoryPatch): (r: seq<DataCategory>)
    ensures |r| == |categories|
    ensures forall i :: 0 <= i < |categories| && categories[i].id == id ==> r[i] == Merged(categories[i], Normalized(data))
    ensures forall i :: 0 <= i < |categories| && categories[i].id != id ==> r[i] == categories[i]
  {
    Lists.UpdateId(categories, id, IdOf, MergeWith(Normalized(data)))
  }

  /** The approve and reject edits: only the status of the matching categories changes. */
  function WithStatus(categories: seq<DataCategory>, id: int, status: Status): (r: seq<DataCategory>)
    ensures |r| == |categories|
    ensures forall i :: 0 <= i < |categories| ==> r[i].(status := categories[i].status) == categories[i]
    ensures forall i :: 0 <= i < |categories| ==> r[i].status == (if categories[i].id == id then status else categories[i].status)
  {
    Lists.UpdateId(categories, id, IdOf, SetStatus(status))
  }

  /** `categories.filter(c => c.id !== id)` */
  function Without(categories: seq<DataCategory>, id: int): (r: seq<DataCategory>)
    ensures forall c :: c in r <==> c in categories && c.id != id
  {
    Lists.RemoveId(categories, id, IdOf)
  }

  /** Approving and then rejecting the same category leaves it rejected, as
      if it had only been rejected. */
  lemma LastDecisionWins(categories: seq<DataCategory>, id: int, first: Status, last: Status)
    ensures WithStatus(WithStatus(categories, id, first), id, last) == WithStatus(categories, id, last)
  {
    Lists.UpdateIdOverwrite(categories, id, IdOf, SetStatus(first), SetStatus(last));
  }

  /** Saving the same update twice leaves the list as saving it once. */
  lemma PatchIdempotent(categories: seq<DataCategory>, id: int, data: CategoryPatch)
    ensures Patched(Patched(categories, id, data), id, data) == Patched(categories, id, data)
  {
    forall c: DataCategory
      ensures IdOf(MergeWith(Normalized(data))(c)) == IdOf(c)
      ensures MergeWith(Normalized(data))(MergeWith(Normalized(data))(c)) == MergeWith(Normalized(data))(c)
    {
      MergeIdempotent(c, Normalized(data));
    }
    Lists.UpdateIdIdempotent(categories, id, IdOf, MergeWith(Normalized(data)));
  }

  /** Deleting a category that was edited leaves the same list as deleting
      it straight away. */
  lemma DeleteForgetsEdits(categories: seq<DataCategory>, id: int, data: CategoryPatch, status: Status)
    ensures Without(Patched(categories, id, data), id) == Without(categories, id)
    ensures Without(WithStatus(categories, id, status), id) == Without(categories, id)
  {
    Lists.RemoveAfterUpdate(categories, id, IdOf, MergeWith(Normalized(data)));
    Lists.RemoveAfterUpdate(categories, id, IdOf, SetStatus(status));
  }

  /** The in-place edits keep the loaded categories' ids distinct, which the
      tree flattening relies on. */
  lemma EditsKeepIdsDistinct(categories: seq<DataCategory>, id: int, data: CategoryPatch, status: Status)
    requires Lists.DistinctBy(categories, IdOf)
    ensures Lists.DistinctBy(Patched(categories, id, data), IdOf)
    ensures Lists.DistinctBy(WithStatus(categories, id, status), IdOf)
    ensures Lists.DistinctBy(Without(categories, id), IdOf)
  {
    Lists.UpdateIdKeepsDistinct(categories, id, IdOf, MergeWith(Normalized(data)));
    Lists.UpdateIdKeepsDistinct(categories, id, IdOf, SetStatus(status));
    Lists.RemoveIdKeepsDistinct(categories, id, IdOf);
  }

  function FetchFailure(f: Failure): string { MessageOr(f, "Failed to fetch data categories") }
  function CreateFailure(f: Failure): string { DetailOrMessage(f, "Failed to create data category") }
  function UpdateFailure(f: Failure): string { DetailOrMessage(f, "Failed to update data category") }
  function DeleteFailure(f: Failure): string { MessageOr(f, "Failed to delete data category") }
  function ApproveFailure(f: Failure): string { MessageOr(f, "Failed to approve category") }
  function RejectFailure(f: Failure): string { MessageOr(f, "Failed to reject category") }

  class CategoryStore {
    var categories: seq<DataCategory>
    var isLoading: bool
    var error: Option<string>
    var currentPage: int
    var totalPages: nat
    var totalItems: nat
    /** Every request sent so far, oldest first. */
    var sent: seq<Request>

    function State(): View<DataCategory>
      reads this
    {
      View(categories, error, Pagination(currentPage, totalPages, totalItems))
    }

    predicate Valid()
      reads this
    {
      Coherent(State())
    }

    constructor ()
      ensures State() == Initial() && sent == []
      ensures Valid() && !isLoading
    {
      categories := [];
      isLoading := false;
      error := None;
      currentPage := 1;
      totalPages := 1;
      totalItems := 0;
      sent := [];
    }

    /** Overwrites the list, error and pagination fields with `v`. */
    method Show(v: View<DataCategory>)
      modifies this
      ensures State() == v
      ensures isLoading == old(isLoading) && sent == old(sent)
    {
      categories := v.items;
      error := v.error;
      currentPage := v.pagination.currentPage;
      totalPages := v.pagination.totalPages;
      totalItems := v.pagination.totalItems;
    }

    /** `fetchDataCategories(params)` answered by `reply`. */
    method FetchDataCategories(params: CategoryQuery, reply: Reply<Page<DataCategory>>)
      requires Valid()
      modifies this
      ensures Valid() && !isLoading
      ensures State() == Fetched(old(State()), params.page, reply, FetchFailure)
      ensures sent == old(sent) + [List(params)]
    {
      isLoading := true;
      error := None;
      sent := sent + [List(params)];
      match reply {
        case Ok(body) =>
          Show(Loaded(body, params.page));
        case Failed(f) =>
          error := Some(FetchFailure(f));
      }
      isLoading := false;
    }

    /** `createDataCategory(data)`: refetches the categories of `data.sector`. */
    method CreateDataCategory(data: NewCategory, posted: Outcome, refetch: Reply<Page<DataCategory>>) returns (thrown: Option<Failure>)
      requires Valid()
      modifies this
      ensures Valid() && !isLoading
      ensures Settled(State(), thrown) == Refetching(old(State()), posted, CreateFailure, None, refetch, FetchFailure)
      ensures sent == old(sent) + [Create(data)] + (if posted.Done? then [List(InSector(data.sector))] else [])
    {
      isLoading := true;
      error := None;
      sent := sent + [Create(data)];
      match posted {
        case Error(f) =>
          error := Some(CreateFailure(f));
          thrown := Some(f);
        case Done =>
          FetchDataCategories(InSector(data.sector), refetch);
          thrown := None;
      }
      isLoading := false;
    }

    /** The shared body of the four in-place mutations: send `request`; on
        success replace the list by `edit(list)`, on failure record
        `describe(failure)` and rethrow. */
    method Edit(request: Request, posted: Outcome, describe: Failure -> string, edit: seq<DataCategory> -> seq<DataCategory>)
      returns (thrown: Option<Failure>)
      requires Valid()
      modifies this
      ensures Valid() && !isLoading
      ensures Settled(State(), thrown) == Edited(old(State()), posted, describe, edit)
      ensures sent == old(sent) + [request]
    {
      isLoading := true;
      error := None;
      sent := sent + [request];
      match posted {
        case Error(f) =>
          error := Some(describe(f));
          thrown := Some(f);
        case Done =>
          categories := edit(categories);
          thrown := None;
      }
      isLoading := false;
    }

    /** `updateDataCategory(id, data)`: the patch is normalised, then merged
        into the matching categories. */
    method UpdateDataCategory(id: int, data: CategoryPatch, posted: Outcome) returns (thrown: Option<Failure>)
      requires Valid()
      modifies this
      ensures Valid() && !isLoading
      ensures Settled(State(), thrown) == Edited(old(State()), posted, UpdateFailure, s => Patched(s, id, data))
      ensures sent == old(sent) + [Update(id, data)]
    {
      thrown := Edit(Update(id, data), posted, UpdateFailure, s => Patched(s, id, data));
    }

    /** `deleteDataCategory(id)` */
    method DeleteDataCategory(id: int, posted: Outcome) returns (thrown: Option<Failure>)
      requires Valid()
      modifies this
      ensures Valid() && !isLoading
      ensures Settled(State(), thrown) == Edited(old(State()), posted, DeleteFailure, s => Without(s, id))
      ensures sent == old(sent) + [Delete(id)]
    {
      thrown := Edit(Delete(id), posted, DeleteFailure, s => Without(s, id));
    }

    /** `approveDataCategory(id)` */
    method ApproveDataCategory(id: int, posted: Outcome) returns (thrown: Option<Failure>)
      requires Valid()
      modifies this
      ensures Valid() && !isLoading
      ensures Settled(State(), thrown) == Edited(old(State()), posted, ApproveFailure, s => WithStatus(s, id, Approved))
      ensures sent == old(sent) + [Approve(id)]
    {
      thrown := Edit(Approve(id), posted, ApproveFailure, s => WithStatus(s, id, Approved));
    }

    /** `rejectDataCategory(id)` */
    method RejectDataCategory(id: int, posted: Outcome) returns (thrown: Option<Failure>)
      requires Valid()
      modifies this
      ensures Valid() && !isLoading
      ensures Settled(State(), thrown) == Edited(old(State()), posted, RejectFailure, s => WithStatus(s, id, Rejected))
      ensures sent == old(sent) + [Reject(id)]
    {
      thrown := Edit(Reject(id), posted, RejectFailure, s => WithStatus(s, id, Rejected));
    }
  }
}
