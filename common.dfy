/** Values shared by every store: optional values, the status enumeration,
    HTTP replies as inputs, the error-message fallback and the pagination
    bookkeeping the list stores repeat. */
module Common {

  datatype Option<+T> = None | Some(value: T)

  /** The status values of constants/enum/statusEnum.ts. */
  datatype Status = Active | Inactive | Suspended | Approved | Pending | Rejected

  /** The wire spelling of a status. */
  function StatusText(s: Status): string
  {
    match s
    case Active => "active"
    case Inactive => "inactive"
    case Suspended => "suspended"
    case Approved => "approved"
    case Pending => "pending"
    case Rejected => "rejected"
  }

  /** Reads a status back from its wire spelling. */
  function ParseStatus(text: string): (r: Option<Status>)
    ensures r.Some? ==> StatusText(r.value) == text
  {
    if text == "active" then Some(Active)
    else if text == "inactive" then Some(Inactive)
    else if text == "suspended" then Some(Suspended)
    else if text == "approved" then Some(Approved)
    else if text == "pending" then Some(Pending)
    else if text == "rejected" then Some(Rejected)
    else None
  }

  /** Every status survives a round trip through its wire spelling. */
  lemma StatusRoundTrip(s: Status)
    ensures ParseStatus(StatusText(s)) == Some(s)
  {
  }

  /** What a failed call exposes to the stores: `error.response.data.detail`,
      the first entry of `error.response.data.year`, and `error.message`.
      An absent field is None. */
  datatype Failure = Failure(detail: Option<string>, yearErrors: seq<string>, message: Option<string>)

  /** The outcome of one call to the backend, given to the model as an input. */
  datatype Reply<+T> = Ok(body: T) | Failed(failure: Failure)

  /** The outcome of a call whose body the store ignores. */
  datatype Outcome = Done | Error(failure: Failure)

  /** A list response: Django-style pagination `{results, count}`, or a bare array. */
  datatype Page<+T> = Paginated(results: seq<T>, count: nat) | Unpaged(items: seq<T>)

  /** JavaScript truthiness of an optional string: absent and "" are falsy. */
  predicate Truthy(s: Option<string>)
  {
    s.Some? && s.value != ""
  }

  /** `a || b || ... || fallback` over optional strings. */
  function FirstTruthy(candidates: seq<Option<string>>, fallback: string): (r: string)
    ensures r == fallback || exists i :: 0 <= i < |candidates| && Truthy(candidates[i]) && r == candidates[i].value
    ensures forall i :: 0 <= i < |candidates| && Truthy(candidates[i]) ==>
              exists j :: 0 <= j <= i && Truthy(candidates[j]) && r == candidates[j].value
    ensures (forall i :: 0 <= i < |candidates| ==> !Truthy(candidates[i])) ==> r == fallback
    ensures fallback != "" ==> r != ""
  {
    if |candidates| == 0 then fallback
    else if Truthy(candidates[0]) then candidates[0].value
    else FirstTruthy(candidates[1..], fallback)
  }

  /** The first candidate that is truthy wins, whatever follows it. */
  lemma {:induction false} FirstTruthyPicksEarliest(candidates: seq<Option<string>>, fallback: string, i: nat)
    requires i < |candidates| && Truthy(candidates[i])
    requires forall j :: 0 <= j < i ==> !Truthy(candidates[j])
    ensures FirstTruthy(candidates, fallback) == candidates[i].value
  {
    if i > 0 {
      FirstTruthyPicksEarliest(candidates[1..], fallback, i - 1);
    }
  }

  /** `error.response?.data?.detail || error.message || fallback` */
  function DetailOrMessage(f: Failure, fallback: string): (r: string)
    ensures Truthy(f.detail) ==> r == f.detail.value
    ensures !Truthy(f.detail) && Truthy(f.message) ==> r == f.message.value
    ensures !Truthy(f.detail) && !Truthy(f.message) ==> r == fallback
  {
    var candidates := [f.detail, f.message];
    if Truthy(f.detail) then
      FirstTruthyPicksEarliest(candidates, fallback, 0);
      FirstTruthy(candidates, fallback)
    else if Truthy(f.message) then
      FirstTruthyPicksEarliest(candidates, fallback, 1);
      FirstTruthy(candidates, fallback)
    else
      FirstTruthy(candidates, fallback)
  }

  /** `error.message || fallback` */
  function MessageOr(f: Failure, fallback: string): (r: string)
    ensures Truthy(f.message) ==> r == f.message.value
    ensures !Truthy(f.message) ==> r == fallback
  {
    var candidates := [f.message];
    assert candidates[1..] == [];
    FirstTruthy(candidates, fallback)
  }

  /** `Math.ceil(count / 20)`, the page count for pages of 20 rows, on integers. */
  function TotalPages(count: nat): (r: nat)
    ensures r * 20 >= count
    ensures r > 0 ==> (r - 1) * 20 < count
  {
    (count + 19) / 20
  }

  /** TotalPages is the smallest number of 20-row pages that hold `count` rows. */
  lemma TotalPagesIsLeast(count: nat, pages: nat)
    requires pages * 20 >= count
    ensures TotalPages(count) <= pages
  {
  }

  /** `params.page || 1`: an absent or zero page number means page 1. */
  function PageOrFirst(page: Option<int>): (r: int)
    ensures r != 0
    ensures page.Some? && page.value != 0 ==> r == page.value
  {
    if page.Some? && page.value != 0 then page.value else 1
  }

  datatype Pagination = Pagination(currentPage: int, totalPages: nat, totalItems: nat)

  /** The list and pagination fields a fetch stores for a list response and
      the page number it asked for. */
  function Paged<T>(body: Page<T>, requested: Option<int>): (r: (seq<T>, Pagination))
    ensures body.Paginated? ==> r.0 == body.results && r.1.totalItems == body.count
    ensures body.Paginated? ==> r.1.totalPages * 20 >= body.count && (r.1.totalPages == 0 || (r.1.totalPages - 1) * 20 < body.count)
    ensures body.Paginated? && requested.Some? && requested.value != 0 ==> r.1.currentPage == requested.value
    ensures body.Paginated? && (requested.None? || requested.value == 0) ==> r.1.currentPage == 1
    ensures body.Unpaged? ==> r.0 == body.items && r.1 == Pagination(1, 1, |body.items|)
  {
    match body
    case Paginated(results, count) => (results, Pagination(PageOrFirst(requested), TotalPages(count), count))
    case Unpaged(items) => (items, Pagination(1, 1, |items|))
  }
}
