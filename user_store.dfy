/** The user-management store (src/pages/users/store/useManageUser.ts).
    Its fetch forwards the caller's parameters unchanged and copes with a
    body that is neither paginated nor an array; every mutation refetches
    the page the store is on, and every error message prefers the server's
    `detail`. Its loading flag is called `loading`. */
module Users {
  import opened Common
  import opened Listing

  datatype User = User(
    id: int, staffCode: string, username: Option<string>, email: Option<string>,
    firstName: string, middleName: Option<string>, lastName: string, fullName: string,
    phoneNumber: Option<string>, role: string, isActive: bool, isStaff: bool,
    gender: Option<string>, profilePicture: Option<string>, createdAt: string, updatedAt: string)

  /** The `fetchUsers` parameters, sent as the query string as they are. */
  datatype UserQuery = UserQuery(search: Option<string>, role: Option<string>, page: Option<int>)

  datatype NewUser = NewUser(
    staffCode: string, firstName: string, lastName: string, email: string,
    password: Option<string>, role: string, isActive: Option<bool>)

  datatype UserPatch = UserPatch(
    role: Option<string>, isActive: Option<bool>, firstName: Option<string>,
    lastName: Option<string>, email: Option<string>, phoneNumber: Option<string>)

  /** A list response: a paginated or bare-array body, or anything else. */
  datatype UserBody = Body(page: Page<User>) | NotAList

  /** The requests the store sends: GET /users/, POST /users/,
      PATCH /users/{id}/ and DELETE /users/{id}/. */
  datatype Request =
    | List(query: UserQuery)
    | Create(data: NewUser)
    | Update(id: int, patch: UserPatch)
    | Delete(id: int)

  /** `fetchUsers({ page })` */
  function AtPage(page: int): UserQuery
  {
    UserQuery(None, None, Some(page))
  }

  /** `Array.isArray(response.data) ? response.data : []` on the
      non-paginated branch: anything that is not a list reads as no users. */
  function AsPage(b: UserBody): (r: Page<User>)
    ensures b.NotAList? ==> r == Unpaged([])
    ensures b.Body? ==> r == b.page
  {
    match b
    case Body(page) => page
    case NotAList => Unpaged([])
  }

  function AsPageReply(reply: Reply<UserBody>): Reply<Page<User>>
  {
    match reply
    case Ok(b) => Ok(AsPage(b))
    case Failed(f) => Failed(f)
  }

  function FetchFailure(f: Failure): string { DetailOrMessage(f, "Failed to fetch users") }
  function CreateFailure(f: Failure): string { DetailOrMessage(f, "Failed to create user") }
  function UpdateFailure(f: Failure): string { DetailOrMessage(f, "Failed to update user") }
  function DeleteFailure(f: Failure): string { DetailOrMessage(f, "Failed to delete user") }

  /** A body that is not a list empties the store and reports no users on one page. */
  lemma OddBodyEmptiesStore(v: View<User>, requested: Option<int>)
    ensures Fetched(v, requested, AsPageReply(Ok(NotAList)), FetchFailure) == View([], None, Pagination(1, 1, 0))
  {
  }

  class UserStore {
    var users: seq<User>
    var loading: bool
    var error: Option<string>
    var currentPage: int
    var totalPages: nat
    var totalItems: nat
    /** Every request sent so far, oldest first. */
    var sent: seq<Request>

    function State(): View<User>
      reads this
    {
      View(users, error, Pagination(currentPage, totalPages, totalItems))
    }

    predicate Valid()
      reads this
    {
      Coherent(State())
    }

    constructor ()
      ensures State() == Initial() && sent == []
      ensures Valid() && !loading
    {
      users := [];
      loading := false;
      error := None;
      currentPage := 1;
      totalPages := 1;
      totalItems := 0;
      sent := [];
    }

    /** Overwrites the list, error and pagination fields with `v`. */
    method Show(v: View<User>)
      modifies this
      ensures State() == v
      ensures loading == old(loading) && sent == old(sent)
    {
      users := v.items;
      error := v.error;
      currentPage := v.pagination.currentPage;
      totalPages := v.pagination.totalPages;
      totalItems := v.pagination.totalItems;
    }

    /** `fetchUsers(params)` answered by `reply`; a failure is recorded, not rethrown. */
    method FetchUsers(params: UserQuery, reply: Reply<UserBody>)
      requires Valid()
      modifies this
      ensures Valid() && !loading
      ensures State() == Fetched(old(State()), params.page, AsPageReply(reply), FetchFailure)
      ensures sent == old(sent) + [List(params)]
    {
      loading := true;
      error := None;
      sent := sent + [List(params)];
      match reply {
        case Ok(body) =>
          Show(Loaded(AsPage(body), params.page));
        case Failed(f) =>
          error := Some(FetchFailure(f));
      }
      loading := false;
    }

    /** The shared body of the three mutations: send `request`; on success
        refetch the current page, on failure record `describe(failure)` and rethrow. */
    method Mutate(request: Request, posted: Outcome, describe: Failure -> string, refetch: Reply<UserBody>)
      returns (thrown: Option<Failure>)
      requires Valid()
      modifies this
      ensures Valid() && !loading
      ensures Settled(State(), thrown)
              == Refetching(old(State()), posted, describe, Some(old(currentPage)), AsPageReply(refetch), FetchFailure)
      ensures sent == old(sent) + [request] + (if posted.Done? then [List(AtPage(old(currentPage)))] else [])
    {
      loading := true;
      error := None;
      sent := sent + [request];
      match posted {
        case Error(f) =>
          error := Some(describe(f));
          thrown := Some(f);
        case Done =>
          FetchUsers(AtPage(currentPage), refetch);
          thrown := None;
      }
      loading := false;
    }

    /** `createUser(user)` */
    method CreateUser(data: NewUser, posted: Outcome, refetch: Reply<UserBody>) returns (thrown: Option<Failure>)
      requires Valid()
      modifies this
      ensures Valid() && !loading
      ensures Settled(State(), thrown)
              == Refetching(old(State()), posted, CreateFailure, Some(old(currentPage)), AsPageReply(refetch), FetchFailure)
      ensures sent == old(sent) + [Create(data)] + (if posted.Done? then [List(AtPage(old(currentPage)))] else [])
    {
      thrown := Mutate(Create(data), posted, CreateFailure, refetch);
    }

    /** `updateUser(id, user)` */
    method UpdateUser(id: int, data: UserPatch, posted: Outcome, refetch: Reply<UserBody>) returns (thrown: Option<Failure>)
      requires Valid()
      modifies this
      ensures Valid() && !loading
      ensures Settled(State(), thrown)
              == Refetching(old(State()), posted, UpdateFailure, Some(old(currentPage)), AsPageReply(refetch), FetchFailure)
      ensures sent == old(sent) + [Update(id, data)] + (if posted.Done? then [List(AtPage(old(currentPage)))] else [])
    {
      thrown := Mutate(Update(id, data), posted, UpdateFailure, refetch);
    }

    /** `deleteUser(id)` */
    method DeleteUser(id: int, posted: Outcome, refetch: Reply<UserBody>) returns (thrown: Option<Failure>)
      requires Valid()
      modifies this
      ensures Valid() && !loading
      ensures Settled(State(), thrown)
              == Refetching(old(State()), posted, DeleteFailure, Some(old(currentPage)), AsPageReply(refetch), FetchFailure)
      ensures sent == old(sent) + [Delete(id)] + (if posted.Done? then [List(AtPage(old(currentPage)))] else [])
    {
      thrown := Mutate(Delete(id), posted, DeleteFailure, refetch);
    }
  }

  /** Creating a user while on page 2 refetches page 2; when that refetch
      fails, the fetch swallows it, keeps the list and reports the server's
      `detail`, and the create itself does not throw. */
  method FailedRefetchIsSwallowed() returns (page: int, error: Option<string>, count: nat, thrown: Option<Failure>)
    ensures page == 2 && count == 1 && thrown == None
    ensures error == Some("Not found.")
  {
    var store := new UserStore();
    var u := User(5, "S-5", None, None, "Asha", None, "Rai", "Asha Rai", None, "MAKER", true, false, None, None, "", "");
    store.FetchUsers(AtPage(2), Ok(Body(Paginated([u], 21))));
    thrown := store.CreateUser(NewUser("S-6", "Bina", "KC", "b@x", None, "CHECKER", None), Done,
                               Failed(Failure(Some("Not found."), [], Some("Request failed"))));
    page := store.currentPage;
    error := store.error;
    count := |store.users|;
  }
}
