/** The economic-data-entry store (src/store/useEconomicDataEntryStore.ts).
    Unlike the other list stores it keeps no pagination: a fetch is for one
    progress report, and a paginated reply contributes only its `results`.
    Create refetches that report's entries; update, delete, approve and
    reject edit the loaded list in place. */
module EconomicEntries {
  import opened Common
  import Lists

  datatype Entry = Entry(
    id: int, progress: int, category: int, value: int, capacity: Option<int>, status: Status,
    createdAt: string, updatedAt: string, categoryName: Option<string>,
    createdBy: Option<int>, createdByName: Option<string>)

  /** `{ progress: progressId, ...params }`, where `params` may carry a status filter. */
  datatype EntryQuery = EntryQuery(progress: int, status: Option<string>)

  datatype NewEntry = NewEntry(progress: int, category: int, value: int, capacity: Option<int>)

  /** `UpdateEntryPayload`: an absent field is None. */
  datatype EntryPatch = EntryPatch(value: Option<int>, capacity: Option<int>)

  /** The requests the store sends: GET and POST /economic-data-entries/,
      PATCH and DELETE /economic-data-entries/{id}/, POST
      /economic-data-entries/{id}/approve/, and POST .../reject/ with
      `{ rejected_reason }`. */
  datatype Request =
    | List(query: EntryQuery)
    | Create(data: NewEntry)
    | Update(id: int, patch: EntryPatch)
    | Delete(id: int)
    | Approve(id: int)
    | Reject(id: int, rejectedReason: string)

  /** The store's observable fields once no call is in flight. */
  datatype EntryView = EntryView(entries: seq<Entry>, error: Option<string>)

  /** What an action leaves behind, and the failure it rethrows, if any. */
  datatype EntrySettled = EntrySettled(view: EntryView, thrown: Option<Failure>)

  /** `response.data.results ? response.data.results : response.data` */
  function Listed(body: Page<Entry>): (r: seq<Entry>)
    ensures body.Paginated? ==> r == body.results
    ensures body.Unpaged? ==> r == body.items
  {
    match body
    case Paginated(results, _) => results
    case Unpaged(items) => items
  }

  /** Two replies that list the same entries leave the same state, whatever
      count the paginated one reports. */
  lemma CountIsIgnored(v: EntryView, entries: seq<Entry>, count: nat)
    ensures Fetched(v, Ok(Paginated(entries, count))) == Fetched(v, Ok(Unpaged(entries)))
  {
  }

  function FetchFailure(f: Failure): string { MessageOr(f, "Failed to fetch entries") }
  function CreateFailure(f: Failure): string { DetailOrMessage(f, "Failed to create entry") }
  function UpdateFailure(f: Failure): string { DetailOrMessage(f, "Failed to update entry") }
  function DeleteFailure(f: Failure): string { MessageOr(f, "Failed to delete entry") }
  function ApproveFailure(f: Failure): string { MessageOr(f, "Failed to approve entry") }
  function RejectFailure(f: Failure): string { MessageOr(f, "Failed to reject entry") }

  /** A whole fetch: the entries come from the reply, or the old entries stay
      and the error is recorded; a failed fetch is not rethrown. */
  function Fetched(v: EntryView, reply: Reply<Page<Entry>>): (r: EntryView)
    ensures reply.Ok? ==> r.entries == Listed(reply.body) && r.error == None
    ensures reply.Failed? ==> r.entries == v.entries && r.error == Some(FetchFailure(reply.failure))
  {
    match reply
    case Ok(body) => EntryView(Listed(body), None)
    case Failed(f) => v.(error := Some(FetchFailure(f)))
  }

  /** `createEntry`: on success the store ends as the refetch of the entry's
      progress report leaves it; on failure the entries stay, the error is
      recorded and rethrown. */
  function Created(v: EntryView, posted: Outcome, refetch: Reply<Page<Entry>>): (r: EntrySettled)
    ensures posted.Done? ==> r == EntrySettled(Fetched(v, refetch), None)
    ensures posted.Error? ==> r.view == v.(error := Some(CreateFailure(posted.failure)))
    ensures posted.Error? ==> r.thrown == Some(posted.failure)
  {
    match posted
    case Done => EntrySettled(Fetched(v, refetch), None)
    case Error(f) => EntrySettled(v.(error := Some(CreateFailure(f))), Some(f))
  }

  /** An in-place mutation: on success the entries become `edit(entries)`
      and the error stays cleared; on failure the entries stay, the error is
      recorded and rethrown. */
  function Edited(v: EntryView, posted: Outcome, describe: Failure -> string, edit: seq<Entry> -> seq<Entry>): (r: EntrySettled)
    ensures posted.Done? ==> r == EntrySettled(EntryView(edit(v.entries), None), None)
    ensures posted.Error? ==> r.view.entries == v.entries && r.view.error == Some(describe(posted.failure))
    ensures posted.Error? ==> r.thrown == Some(posted.failure)
  {
    match posted
    case Done => EntrySettled(EntryView(edit(v.entries), None), None)
    case Error(f) => EntrySettled(v.(error := Some(describe(f))), Some(f))
  }

  function IdOf(e: Entry): int { e.id }

  /** `{ ...e, ...data }` with `data: { value?, capacity? }`: a present value
      or capacity replaces the entry's; nothing else changes. */
  function Merged(e: Entry, p: EntryPatch): (r: Entry)
    ensures r.(value := e.value, capacity := e.capacity) == e
    ensures r.value == (if p.value.Some? then p.value.value else e.value)
    ensures r.capacity == (if p.capacity.Some? then p.capacity else e.capacity)
  {
    e.(value := if p.value.Some? then p.value.value else e.value,
       capacity := if p.capacity.Some? then p.capacity else e.capacity)
  }

  /** `e => ({ ...e, ...data })` */
  function MergeWith(p: EntryPatch): Entry -> Entry
  {
    (e: Entry) => Merged(e, p)
  }

  /** `e => ({ ...e, status })` */
  function SetStatus(status: Status): Entry -> Entry
  {
    (e: Entry) => e.(status := status)
  }

  /** The list after a successful update: the matching entries are merged
      with the patch, the others keep their place and value. */
  function Patched(entries: seq<Entry>, id: int, data: EntryPatch): (r: seq<Entry>)
    ensures |r| == |entries|
    ensures forall i :: 0 <= i < |entries| && entries[i].id == id ==> r[i] == Merged(entries[i], data)
    ensures forall i :: 0 <= i < |entries| && entries[i].id != id ==> r[i] == entries[i]
  {
    Lists.UpdateId(entries, id, IdOf, MergeWith(data))
  }

  /** The approve and reject edits: only the status of the matching entries changes. */
  function WithStatus(entries: seq<Entry>, id: int, status: Status): (r: seq<Entry>)
    ensures |r| == |entries|
    ensures forall i :: 0 <= i < |entries| ==> r[i].(status := entries[i].status) == entries[i]
    ensures forall i :: 0 <= i < |entries| ==> r[i].status == (if entries[i].id == id then status else entries[i].status)
  {
    Lists.UpdateId(entries, id, IdOf, SetStatus(status))
  }

  /** `entries.filter(e => e.id !== id)` */
  function Without(entries: seq<Entry>, id: int): (r: seq<Entry>)
    ensures forall e :: e in r <==> e in entries && e.id != id
  {
    Lists.RemoveId(entries, id, IdOf)
  }

  /** Approving and then rejecting the same entry leaves it rejected, as if
      it had only been rejected. */
  lemma LastDecisionWins(entries: seq<Entry>, id: int, first: Status, last: Status)
    ensures WithStatus(WithStatus(entries, id, first), id, last) == WithStatus(entries, id, last)
  {
    Lists.UpdateIdOverwrite(entries, id, IdOf, SetStatus(first), SetStatus(last));
  }

  /** Deleting an entry that was edited leaves the same list as deleting it
      straight away. */
  lemma DeleteForgetsEdits(entries: seq<Entry>, id: int, data: EntryPatch, status: Status)
    ensures Without(Patched(entries, id, data), id) == Without(entries, id)
    ensures Without(WithStatus(entries, id, status), id) == Without(entries, id)
  {
    Lists.RemoveAfterUpdate(entries, id, IdOf, MergeWith(data));
    Lists.RemoveAfterUpdate(entries, id, IdOf, SetStatus(status));
  }

  class EntryStore {
    var entries: seq<Entry>
    var isLoading: bool
    var error: Option<string>
    /** Every request sent so far, oldest first. */
    var sent: seq<Request>

    function State(): EntryView
      reads this
    {
      EntryView(entries, error)
    }

    constructor ()
      ensures State() == EntryView([], None) && sent == [] && !isLoading
    {
      entries := [];
      isLoading := false;
      error := None;
      sent := [];
    }

    /** `fetchEntries(progressId, { status })` answered by `reply`. */
    method FetchEntries(progressId: int, status: Option<string>, reply: Reply<Page<Entry>>)
      modifies this
      ensures State() == Fetched(old(State()), reply) && !isLoading
      ensures sent == old(sent) + [List(EntryQuery(progressId, status))]
    {
      isLoading := true;
      error := None;
      sent := sent + [List(EntryQuery(progressId, status))];
      match reply {
        case Ok(body) =>
          entries := Listed(body);
        case Failed(f) =>
          error := Some(FetchFailure(f));
      }
      isLoading := false;
    }

    /** `createEntry(data)`: refetches the entries of `data.progress`, with no status filter. */
    method CreateEntry(data: NewEntry, posted: Outcome, refetch: Reply<Page<Entry>>) returns (thrown: Option<Failure>)
      modifies this
      ensures EntrySettled(State(), thrown) == Created(old(State()), posted, refetch) && !isLoading
      ensures sent == old(sent) + [Create(data)] + (if posted.Done? then [List(EntryQuery(data.progress, None))] else [])
    {
      isLoading := true;
      error := None;
      sent := sent + [Create(data)];
      match posted {
        case Error(f) =>
          error := Some(CreateFailure(f));
          thrown := Some(f);
        case Done =>
          FetchEntries(data.progress, None, refetch);
          thrown := None;
      }
      isLoading := false;
    }

    /** The shared body of the four in-place mutations. */
    method Edit(request: Request, posted: Outcome, describe: Failure -> string, edit: seq<Entry> -> seq<Entry>)
      returns (thrown: Option<Failure>)
      modifies this
      ensures EntrySettled(State(), thrown) == Edited(old(State()), posted, describe, edit) && !isLoading
      ensures sent == old(sent) + [request]
    {
      isLoading := true;
      error := None;
      sent := sent + [request];
      match posted {
        case Error(f) =>
          error := Some(describe(f));
          thrown := Some(f);
        case Done =>
          entries := edit(entries);
          thrown := None;
      }
      isLoading := false;
    }

    /** `updateEntry(id, data)` */
    method UpdateEntry(id: int, data: EntryPatch, posted: Outcome) returns (thrown: Option<Failure>)
      modifies this
      ensures EntrySettled(State(), thrown) == Edited(old(State()), posted, UpdateFailure, s => Patched(s, id, data)) && !isLoading
      ensures sent == old(sent) + [Update(id, data)]
    {
      thrown := Edit(Update(id, data), posted, UpdateFailure, s => Patched(s, id, data));
    }

    /** `deleteEntry(id)` */
    method DeleteEntry(id: int, posted: Outcome) returns (thrown: Option<Failure>)
      modifies this
      ensures EntrySettled(State(), thrown) == Edited(old(State()), posted, DeleteFailure, s => Without(s, id)) && !isLoading
      ensures sent == old(sent) + [Delete(id)]
    {
      thrown := Edit(Delete(id), posted, DeleteFailure, s => Without(s, id));
    }

    /** `approveEntry(id)` */
    method ApproveEntry(id: int, posted: Outcome) returns (thrown: Option<Failure>)
      modifies this
      ensures EntrySettled(State(), thrown) == Edited(old(State()), posted, ApproveFailure, s => WithStatus(s, id, Approved)) && !isLoading
      ensures sent == old(sent) + [Approve(id)]
    {
      thrown := Edit(Approve(id), posted, ApproveFailure, s => WithStatus(s, id, Approved));
    }

    /** `rejectEntry(id, { rejected_reason })`: the reason goes to the server
        only; the local edit sets the status. */
    method RejectEntry(id: int, rejectedReason: string, posted: Outcome) returns (thrown: Option<Failure>)
      modifies this
      ensures EntrySettled(State(), thrown) == Edited(old(State()), posted, RejectFailure, s => WithStatus(s, id, Rejected)) && !isLoading
      ensures sent == old(sent) + [Reject(id, rejectedReason)]
    {
      thrown := Edit(Reject(id, rejectedReason), posted, RejectFailure, s => WithStatus(s, id, Rejected));
    }
  }
}
