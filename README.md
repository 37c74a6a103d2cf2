# EARS-Frontend core, modelled in Dafny

EARS-Frontend is the React client of an economic-data reporting system. This
project models the logic the client holds itself and proves properties of that
model:

- the axios token-refresh coordinator, which lets many requests that fail with
  401 share a single refresh call;
- the persisted authentication store;
- the flattening of the data-category hierarchy into a depth-tagged list;
- the six zustand list stores (data categories, user-related offices,
  economic data entries, sectors, fiscal years, users): their pagination
  bookkeeping, error-message fallbacks, refetch policies and in-place list edits;
- the sidebar's role and search filter, with its expand and collapse state;
- the header's initials, role label and role colour;
- the example counter store.

The backend is never called. Every reply of the backend is an input to the
model: `Reply<Page<T>>` for a list fetch and `Outcome` for a call whose body
is ignored. Each store also records the requests it sends in a `sent` log.

A store is a class whose fields are the store's fields. Each action is a
method, and its postcondition ties the new fields to a function of the old
ones. Those functions are in `Listing` and in each store's module, and the
lemmas beside them state what the actions promise.

Files:

- `common.dfy` (`Common`): options, statuses, failures, replies, the
  `a || b || fallback` error chain and the page arithmetic.
- `text.dfy` (`Text`): ASCII case mapping, `includes` and `split(" ")`.
- `lists.dfy` (`Lists`): the by-id map and filter.
- `listing.dfy` (`Listing`): the shared shape of a paginated store.
- One file per core source file for the rest.

## Model

| member | source | states |
|---|---|---|
| Common.ParseStatus | src/constants/enum/statusEnum.ts:1-8 | a parsed status spells back to the text it was read from |
| Common.StatusRoundTrip | src/constants/enum/statusEnum.ts:1-8 | every status survives printing and parsing |
| Common.FirstTruthy | src/pages/fiscal_year/store/useFiscalStore.ts:88 | an `a \|\| b \|\| … \|\| fallback` chain returns a truthy candidate or the fallback; a truthy candidate is never skipped for a later one; when none is truthy the result is the fallback; a non-empty fallback gives a non-empty message |
| Common.FirstTruthyPicksEarliest | src/pages/fiscal_year/store/useFiscalStore.ts:88 | the earliest truthy candidate wins, whatever follows it |
| Common.DetailOrMessage | src/pages/sectors/store/useSectorStore.ts:88 | the server's `detail` wins, then the transport message, then the default |
| Common.MessageOr | src/pages/sectors/store/useSectorStore.ts:76 | the transport message if truthy, else the default |
| Common.TotalPages | src/pages/sectors/store/useSectorStore.ts:63 | `ceil(count/20)`: the pages hold every row, and one page fewer would not |
| Common.TotalPagesIsLeast | src/pages/sectors/store/useSectorStore.ts:63 | no smaller page count holds `count` rows |
| Common.PageOrFirst | src/pages/sectors/store/useSectorStore.ts:64 | `page \|\| 1`: the requested page unless it is absent or 0; never page 0 |
| Common.Paged | src/pages/sectors/store/useSectorStore.ts:59-73 | paginated body: results, count, ceil(count/20) pages, requested page or 1; bare array: the array, its length, page 1 of 1 |
| Text.LowerChar | src/components/sidebar.tsx:45 | ASCII `toLowerCase` of one character: upper-case letters move down by 32, everything else is kept |
| Text.UpperChar | src/components/Header.tsx:37 | ASCII `toUpperCase` of one character |
| Text.Lower | src/components/sidebar.tsx:45 | same length, character by character, no upper-case letter left |
| Text.Upper | src/components/Header.tsx:37 | same length, character by character, no lower-case letter left |
| Text.LowerIdempotent | src/components/sidebar.tsx:45 | lower-casing twice is lower-casing once |
| Text.LowerOfUpper | src/components/Header.tsx:43 | lower-casing forgets an earlier upper-casing |
| Text.UpperOfLower | src/components/Header.tsx:43 | upper-casing forgets an earlier lower-casing |
| Text.LowerAppend | src/components/Header.tsx:43 | lower-casing distributes over concatenation |
| Text.UpperAppend | src/components/Header.tsx:43 | upper-casing distributes over concatenation |
| Text.ContainsIffOccurs | src/components/sidebar.tsx:59 | `includes(sub)` holds exactly when `sub` occurs at some position |
| Text.ContainsEmpty | src/components/sidebar.tsx:59 | every string includes the empty string |
| Text.Split | src/components/Header.tsx:34 | `split(" ")` gives at least one piece and no piece holds a space |
| Text.JoinSplit | src/components/Header.tsx:34 | joining the pieces with single spaces gives the string back |
| Text.WordStarts | src/components/Header.tsx:33-36 | the word-starting characters are characters of the string and never spaces |
| Text.FirstCharsAppend | src/components/Header.tsx:35-36 | taking first characters distributes over concatenation |
| Text.FirstCharsOfSplit | src/components/Header.tsx:33-36 | the first characters of the `split(" ")` pieces are exactly the word-starting characters |
| Lists.RemoveId | src/store/useUserRelatedOfficeStore.ts:109 | `filter(x => x.id !== id)` keeps exactly the elements with another id |
| Lists.RemoveIdAppend | src/store/useUserRelatedOfficeStore.ts:109 | the filter distributes over concatenation, so the survivors keep their order |
| Lists.RemoveAbsentId | src/store/useUserRelatedOfficeStore.ts:109 | removing an id nobody carries changes nothing |
| Lists.RemoveIdIdempotent | src/store/useUserRelatedOfficeStore.ts:109 | removing twice is removing once |
| Lists.UpdateId | src/store/useUserRelatedOfficeStore.ts:92-94 | `map(x => x.id === id ? f(x) : x)`: same length, matching positions transformed, the rest kept in place |
| Lists.RemoveAfterUpdate | src/store/useUserRelatedOfficeStore.ts:92-94 | removing an id after editing it equals removing it straight away |
| Lists.UpdateIdIdempotent | src/store/useUserRelatedOfficeStore.ts:92-94 | an edit that fixes its own result applies once |
| Lists.UpdateIdOverwrite | src/store/useUserRelatedOfficeStore.ts:124-126 | a second edit that overwrites the first makes the first irrelevant |
| Lists.UpdateIdKeepsDistinct | src/store/useUserRelatedOfficeStore.ts:92-94 | an id-preserving edit keeps ids distinct |
| Lists.RemoveIdKeepsDistinct | src/store/useUserRelatedOfficeStore.ts:109 | a removal keeps ids distinct |
| Listing.Initial | src/pages/sectors/store/useSectorStore.ts:40-46 | a store starts with no items, no error, page 1 of 1, 0 items, coherent |
| Listing.Loaded | src/pages/sectors/store/useSectorStore.ts:59-73 | after a fetch reply: the list, count, ceil(count/20) and `page \|\| 1`, or the bare array on page 1 of 1; error cleared; coherent |
| Listing.Fetched | src/pages/sectors/store/useSectorStore.ts:48-80 | a failed fetch keeps the list and pagination, records the message and does not rethrow; a successful one loads the reply; coherence is kept |
| Listing.Refetching | src/pages/sectors/store/useSectorStore.ts:82-94 | a failed mutation keeps list and pagination, records its message and rethrows; a successful one ends as the refetch leaves the store and throws nothing |
| Listing.Edited | src/store/useUserRelatedOfficeStore.ts:87-102 | a successful in-place mutation replaces the list by its edit, keeps the pagination and leaves the error cleared; a failure keeps the list and rethrows |
| Listing.RefetchCurrentPageStays | src/pages/sectors/store/useSectorStore.ts:114 | refetching the current page with a paginated reply stays on that page |
| Listing.RefetchWithoutPageShowsFirst | src/pages/sectors/store/useSectorStore.ts:86 | refetching with no parameters lands on page 1 |
| Listing.FailedMutationsAgree | src/store/useUserRelatedOfficeStore.ts:96-99 | a failed mutation leaves the same fields and failure whether or not it would have refetched |
| Session.AuthStore.constructor | src/store/useAuthStore.ts:28-31 | user, both tokens null; not authenticated |
| Session.AuthStore.SetTokens | src/store/useAuthStore.ts:33-34 | both tokens stored, authenticated, user unchanged |
| Session.AuthStore.SetUser | src/store/useAuthStore.ts:36 | only the user changes |
| Session.AuthStore.Login | src/store/useAuthStore.ts:38-44 | user, both tokens and the flag set together |
| Session.AuthStore.Logout | src/store/useAuthStore.ts:46-52 | the signed-out snapshot from any state, so a second logout changes nothing |
| Session.AuthStore.Rehydrate | src/store/useAuthStore.ts:54-62 | loading a snapshot makes `partialize` return it; reloading the store's own snapshot changes nothing |
| TokenRefresh.TokenOf | src/lib/axios.ts:18 | a token read from a header writes back to that header |
| TokenRefresh.BearerRoundTrip | src/lib/axios.ts:18 | the token in `Bearer <token>` reads back unchanged |
| TokenRefresh.InterceptedAuthorization | src/lib/axios.ts:16-19 | a truthy access token yields `Bearer <token>`; otherwise the header is untouched |
| TokenRefresh.RequestConfig.constructor | src/lib/axios.ts:48 | a fresh request is not yet retried |
| TokenRefresh.Released | src/lib/axios.ts:30-37 | one release per waiter, in queue order: its promise resolved with the token (to re-issue in its continuation) or rejected with the error |
| TokenRefresh.CountsAppend | src/lib/axios.ts:30-40 | refresh calls, logouts and redirects of a log add up over concatenation |
| TokenRefresh.FanOutIsQuiet | src/lib/axios.ts:30-37 | releasing the queue never calls refresh, logs out or redirects |
| TokenRefresh.NoRefreshCalls | src/lib/axios.ts:76-79 | a log without a refresh request counts none |
| TokenRefresh.FailedEpisodeLogsOutOnce | src/lib/axios.ts:93-97 | a failed refresh rejects every waiter, logs out once and redirects once, with no further refresh call |
| TokenRefresh.RefreshCoordinator.constructor | src/lib/axios.ts:27-28 | not refreshing, empty queue, nothing in flight |
| TokenRefresh.RefreshCoordinator.AttachToken | src/lib/axios.ts:14-21 | the request's header becomes the intercepted header; its `_retry` flag is kept |
| TokenRefresh.RefreshCoordinator.ProcessQueue | src/lib/axios.ts:30-40 | every waiter released in order with the same outcome; resolved waiters get `Bearer <token>` (line 56), keep `_retry` down; queue emptied |
| TokenRefresh.RefreshCoordinator.OnResponseError | src/lib/axios.ts:47-79 | non-401 or retried: passed through unchanged; 401 while refreshing: appended to the queue, no second call; first 401: marked `_retry`, flag up, one refresh call; no refresh token: logout, redirect and rejection without a call; at most one refresh outstanding |
| TokenRefresh.RefreshCoordinator.FinishRefresh | src/lib/axios.ts:81-100 | success: new access token with the old refresh token, default header set, waiters resumed with `Bearer <access>`, then the leader re-issued with it; failure: waiters then leader rejected with the same error and their headers untouched, one logout, one redirect; either way queue empty and flag down |
| TokenRefresh.RefreshCoordinator.RefreshSucceeded | src/lib/axios.ts:81-92 | the success path alone: tokens stored, default header set, waiters resumed and then the leader re-issued with `Bearer <access>`, queue empty, flag down |
| TokenRefresh.RefreshCoordinator.RefreshRejected | src/lib/axios.ts:93-100 | the failure path alone: waiters then leader rejected with the refresh error and their headers untouched, one logout, one redirect, queue empty, flag down |
| TokenRefresh.TwoExpiredRequestsShareOneRefresh | src/lib/axios.ts:51-65 | two stale requests make one refresh call; the waiter is resumed and then the leader re-issued, both with the new token |
| TokenRefresh.ResumedWaiterCanRefreshAgain | src/lib/axios.ts:55-57 | a resumed waiter re-issues with `_retry` still down, so a second 401 on it leads a second refresh while the leader's is passed through |
| TokenRefresh.ExpiredWithoutRefreshToken | src/lib/axios.ts:68-72 | no refresh token: no refresh call, one logout, one redirect, store signed out |
| CategoryTree.KeyOf | src/pages/data_categories/store/useDataCategoryTree.ts:15 | `cat.parent \|\| 'root'`: null or 0 files under the root, any other parent under its id |
| CategoryTree.SameIdSameCategory | src/pages/data_categories/store/useDataCategoryTree.ts:28 | with distinct ids, an id names one category |
| CategoryTree.Members | src/pages/data_categories/store/useDataCategoryTree.ts:14-18 | a group holds exactly the categories filed under its key |
| CategoryTree.MembersDistinct | src/pages/data_categories/store/useDataCategoryTree.ts:14-18 | a group of distinct-id categories has distinct ids |
| CategoryTree.GroupByParent | src/pages/data_categories/store/useDataCategoryTree.ts:14-18 | the map gives each key its categories in input order, and has exactly the keys some category uses |
| CategoryTree.InsertById | src/pages/data_categories/store/useDataCategoryTree.ts:23 | inserting into an ascending list keeps it ascending and adds exactly the new category |
| CategoryTree.SortById | src/pages/data_categories/store/useDataCategoryTree.ts:23 | the same categories in ascending id order |
| CategoryTree.SortByIdPermutes | src/pages/data_categories/store/useDataCategoryTree.ts:23 | sorting is a permutation |
| CategoryTree.BuildList | src/pages/data_categories/store/useDataCategoryTree.ts:21-32 | returns exactly `PreOrder`: the group's categories at `level` in ascending id order, each immediately followed by its own subtree one level deeper; every listed id is marked visited |
| CategoryTree.ExpandItem | src/pages/data_categories/store/useDataCategoryTree.ts:26-30 | one turn of the loop appends the item's entry and then exactly its reference subtree |
| CategoryTree.FollowingDone | src/pages/data_categories/store/useDataCategoryTree.ts:21-32 | the loop's list over the sorted group is the reference list of the group |
| CategoryTree.AdoptOrphans | src/pages/data_categories/store/useDataCategoryTree.ts:37-47 | appends exactly `Adopted`: in input order, each category whose parent is absent gets a level-0 entry followed by its subtree from level 1 |
| CategoryTree.Adopt | src/pages/data_categories/store/useDataCategoryTree.ts:41-45 | an adopted category's level-0 entry is followed by exactly its reference subtree from level 1 |
| CategoryTree.RootPassAdoptsNone | src/pages/data_categories/store/useDataCategoryTree.ts:34-41 | the root pass visits no category whose parent is absent, so the orphan pass adopts every one of them |
| CategoryTree.AppendUnvisited | src/pages/data_categories/store/useDataCategoryTree.ts:50-55 | appends exactly `Leftovers`: every category left unvisited, at level 0, in input order, so every id ends visited |
| CategoryTree.Leftovers | src/pages/data_categories/store/useDataCategoryTree.ts:50-55 | the safeguard lists only unlisted categories, each at level 0 |
| CategoryTree.LeftoversDistinct | src/pages/data_categories/store/useDataCategoryTree.ts:50-55 | the safeguard lists no id twice |
| CategoryTree.LeftoversCover | src/pages/data_categories/store/useDataCategoryTree.ts:50-55 | the safeguard lists every category whose id was not listed before |
| CategoryTree.Categories | src/pages/data_categories/store/useDataCategoryTree.ts:27 | the entries' categories in list order |
| CategoryTree.CountInDistinct | src/pages/data_categories/store/useDataCategoryTree.ts:28 | in a distinct-id list each category occurs at most once |
| CategoryTree.SamePermutation | src/pages/data_categories/store/useDataCategoryTree.ts:28 | two distinct-id lists with the same members are permutations of each other |
| CategoryTree.ArrangedComplete | src/pages/data_categories/store/useDataCategoryTree.ts:50-57 | the final list holds each input category exactly once, each deeper entry after its parent one level up, orphans at level 0 |
| CategoryTree.Flatten | src/pages/data_categories/store/useDataCategoryTree.ts:7-57 | missing input gives `[]`; otherwise exactly `TreeOrder`: the root pass, then the orphans in input order, then the leftovers at level 0; a permutation of the input, parents before children at level + 1, root and orphan categories at level 0, roots in ascending id order |
| CategoryTree.SortTwo | src/pages/data_categories/store/useDataCategoryTree.ts:23 | two siblings are ordered by id, whatever their input order |
| CategoryTree.SiblingsInIdOrder | src/pages/data_categories/store/useDataCategoryTree.ts:23-30 | children of one parent are listed in ascending id order, not input order |
| CategoryTree.SubtreeBeforeNextRoot | src/pages/data_categories/store/useDataCategoryTree.ts:26-30 | a category's subtree comes right after it, before the next sibling |
| CategoryTree.CycleLeftAtTopLevel | src/pages/data_categories/store/useDataCategoryTree.ts:50-55 | categories on a parent cycle reach neither pass and are appended at level 0 in input order, after the root pass |
| DataCategories.LocalRef | src/pages/data_categories/store/useDataCategoryStore.ts:141-142 | a string reference becomes null; an id is kept |
| DataCategories.Normalized | src/pages/data_categories/store/useDataCategoryStore.ts:140-142 | string `parent`/`related_office` become null; other fields and which fields are present are kept |
| DataCategories.Merged | src/pages/data_categories/store/useDataCategoryStore.ts:146 | each present patch field replaces the category's; id, sector, status and server fields stay |
| DataCategories.MergeIdempotent | src/pages/data_categories/store/useDataCategoryStore.ts:146 | merging twice is merging once; an empty patch changes nothing |
| DataCategories.Patched | src/pages/data_categories/store/useDataCategoryStore.ts:144-148 | only categories with the id are merged with the normalised patch; the others keep place and value |
| DataCategories.WithStatus | src/pages/data_categories/store/useDataCategoryStore.ts:178-182 | only the status of matching categories changes, to the given one |
| DataCategories.Without | src/pages/data_categories/store/useDataCategoryStore.ts:163-165 | exactly the categories with another id remain |
| DataCategories.LastDecisionWins | src/pages/data_categories/store/useDataCategoryStore.ts:195-199 | approve then reject equals reject alone |
| DataCategories.PatchIdempotent | src/pages/data_categories/store/useDataCategoryStore.ts:144-148 | saving the same update twice equals saving it once |
| DataCategories.DeleteForgetsEdits | src/pages/data_categories/store/useDataCategoryStore.ts:163-165 | deleting an edited category equals deleting it unedited |
| DataCategories.EditsKeepIdsDistinct | src/pages/data_categories/store/useDataCategoryStore.ts:144-199 | update, approve, reject and delete keep ids distinct |
| DataCategories.CategoryStore.constructor | src/pages/data_categories/store/useDataCategoryStore.ts:77-82 | the initial fields; nothing sent |
| DataCategories.CategoryStore.FetchDataCategories | src/pages/data_categories/store/useDataCategoryStore.ts:84-117 | the fields become `Fetched` of the old ones; loading ends false; one list request with the given filters |
| DataCategories.CategoryStore.CreateDataCategory | src/pages/data_categories/store/useDataCategoryStore.ts:119-132 | on success refetches the new category's sector; on failure records detail/message/default and rethrows |
| DataCategories.CategoryStore.UpdateDataCategory | src/pages/data_categories/store/useDataCategoryStore.ts:134-157 | on success the list becomes `Patched`; on failure detail/message/default and rethrow |
| DataCategories.CategoryStore.DeleteDataCategory | src/pages/data_categories/store/useDataCategoryStore.ts:159-172 | on success the list becomes `Without`; pagination untouched |
| DataCategories.CategoryStore.ApproveDataCategory | src/pages/data_categories/store/useDataCategoryStore.ts:174-189 | on success the matching categories become approved |
| DataCategories.CategoryStore.RejectDataCategory | src/pages/data_categories/store/useDataCategoryStore.ts:191-206 | on success the matching categories become rejected |
| Offices.Renamed | src/store/useUserRelatedOfficeStore.ts:91-95 | only offices with the id get the new name; the others keep place and value |
| Offices.WithStatus | src/store/useUserRelatedOfficeStore.ts:123-127 | only the status of matching offices changes |
| Offices.Without | src/store/useUserRelatedOfficeStore.ts:108-110 | exactly the offices with another id remain |
| Offices.LastDecisionWins | src/store/useUserRelatedOfficeStore.ts:140-144 | approve then reject equals reject alone |
| Offices.DeleteForgetsEdits | src/store/useUserRelatedOfficeStore.ts:108-110 | deleting an edited office equals deleting it unedited |
| Offices.EditsKeepIdsDistinct | src/store/useUserRelatedOfficeStore.ts:91-144 | the in-place edits keep ids distinct |
| Offices.OfficeStore.constructor | src/store/useUserRelatedOfficeStore.ts:34-39 | the initial fields; nothing sent |
| Offices.OfficeStore.FetchOffices | src/store/useUserRelatedOfficeStore.ts:41-72 | the fields become `Fetched` of the old ones; a failure is recorded, not rethrown; loading ends false |
| Offices.OfficeStore.CreateOffice | src/store/useUserRelatedOfficeStore.ts:74-85 | on success refetches with no parameters; on failure detail/message/default and rethrow |
| Offices.OfficeStore.UpdateOffice | src/store/useUserRelatedOfficeStore.ts:87-102 | on success the list becomes `Renamed` |
| Offices.OfficeStore.DeleteOffice | src/store/useUserRelatedOfficeStore.ts:104-117 | on success the list becomes `Without` |
| Offices.OfficeStore.ApproveOffice | src/store/useUserRelatedOfficeStore.ts:119-134 | on success the matching offices become approved |
| Offices.OfficeStore.RejectOffice | src/store/useUserRelatedOfficeStore.ts:136-151 | on success the matching offices become rejected |
| EconomicEntries.Listed | src/store/useEconomicDataEntryStore.ts:66 | `results` when paginated, otherwise the bare array |
| EconomicEntries.CountIsIgnored | src/store/useEconomicDataEntryStore.ts:66-67 | the paginated count has no effect on the store |
| EconomicEntries.Fetched | src/store/useEconomicDataEntryStore.ts:53-73 | a reply replaces the entries and leaves the error cleared; a failure keeps the entries and records the message |
| EconomicEntries.Created | src/store/useEconomicDataEntryStore.ts:75-87 | success ends as the refetch leaves the store; failure keeps the entries, records detail/message/default and rethrows |
| EconomicEntries.Edited | src/store/useEconomicDataEntryStore.ts:89-147 | success replaces the entries by their edit; failure keeps them, records the message and rethrows |
| EconomicEntries.Merged | src/store/useEconomicDataEntryStore.ts:94 | a present value or capacity replaces the entry's; nothing else changes |
| EconomicEntries.Patched | src/store/useEconomicDataEntryStore.ts:93-95 | only entries with the id are merged; the others keep place and value |
| EconomicEntries.WithStatus | src/store/useEconomicDataEntryStore.ts:123-125 | only the status of matching entries changes |
| EconomicEntries.Without | src/store/useEconomicDataEntryStore.ts:108-110 | exactly the entries with another id remain |
| EconomicEntries.LastDecisionWins | src/store/useEconomicDataEntryStore.ts:138-140 | approve then reject equals reject alone |
| EconomicEntries.DeleteForgetsEdits | src/store/useEconomicDataEntryStore.ts:108-110 | deleting an edited entry equals deleting it unedited |
| EconomicEntries.EntryStore.constructor | src/store/useEconomicDataEntryStore.ts:49-51 | no entries, no error, not loading |
| EconomicEntries.EntryStore.FetchEntries | src/store/useEconomicDataEntryStore.ts:53-73 | sends `progress` with the status filter; the fields become `Fetched`; loading ends false |
| EconomicEntries.EntryStore.CreateEntry | src/store/useEconomicDataEntryStore.ts:75-87 | on success refetches the entry's progress report |
| EconomicEntries.EntryStore.UpdateEntry | src/store/useEconomicDataEntryStore.ts:89-102 | on success the entries become `Patched` |
| EconomicEntries.EntryStore.DeleteEntry | src/store/useEconomicDataEntryStore.ts:104-117 | on success the entries become `Without` |
| EconomicEntries.EntryStore.ApproveEntry | src/store/useEconomicDataEntryStore.ts:119-132 | on success the matching entries become approved |
| EconomicEntries.EntryStore.RejectEntry | src/store/useEconomicDataEntryStore.ts:134-147 | sends the reason; on success the matching entries become rejected |
| Sectors.CreateAndUpdatePreferDetail | src/pages/sectors/store/useSectorStore.ts:88-142 | create and update report `detail` first; delete, approve and reject ignore it |
| Sectors.SectorStore.constructor | src/pages/sectors/store/useSectorStore.ts:40-46 | the initial fields; nothing sent |
| Sectors.SectorStore.FetchSectors | src/pages/sectors/store/useSectorStore.ts:48-80 | the fields become `Fetched`; error message or default, not rethrown; loading ends false |
| Sectors.SectorStore.CreateSector | src/pages/sectors/store/useSectorStore.ts:82-94 | on success refetches with no parameters, so page 1; failure rethrown |
| Sectors.SectorStore.UpdateSector | src/pages/sectors/store/useSectorStore.ts:96-108 | on success refetches with no parameters, so page 1 |
| Sectors.SectorStore.DeleteSector | src/pages/sectors/store/useSectorStore.ts:110-121 | on success refetches the current page |
| Sectors.SectorStore.ApproveSector | src/pages/sectors/store/useSectorStore.ts:123-134 | on success refetches the current page |
| Sectors.SectorStore.RejectSector | src/pages/sectors/store/useSectorStore.ts:136-147 | on success refetches the current page |
| Sectors.DeleteKeepsPageCreateResets | src/pages/sectors/store/useSectorStore.ts:86-114 | after a delete on page 3 the store is on page 3; after a create it is on page 1 |
| FiscalYears.CreateFailure | src/pages/fiscal_year/store/useFiscalStore.ts:88 | `detail`, else the first `year` message, else the transport message, else the default |
| FiscalYears.YearErrorsOnlyOnCreate | src/pages/fiscal_year/store/useFiscalStore.ts:88-102 | the `year` message is reported on create and ignored on update |
| FiscalYears.FiscalStore.constructor | src/pages/fiscal_year/store/useFiscalStore.ts:38-44 | the initial fields; nothing sent |
| FiscalYears.FiscalStore.FetchFiscalYears | src/pages/fiscal_year/store/useFiscalStore.ts:46-79 | the fields become `Fetched`; loading ends false |
| FiscalYears.FiscalStore.CreateFiscalYear | src/pages/fiscal_year/store/useFiscalStore.ts:81-94 | sends `{ year }`; on success refetches page 1; failure reported by `CreateFailure` and rethrown |
| FiscalYears.FiscalStore.UpdateFiscalYear | src/pages/fiscal_year/store/useFiscalStore.ts:96-108 | on success refetches page 1 |
| FiscalYears.FiscalStore.DeleteFiscalYear | src/pages/fiscal_year/store/useFiscalStore.ts:110-126 | on success refetches the current page |
| FiscalYears.FiscalStore.ApproveFiscalYear | src/pages/fiscal_year/store/useFiscalStore.ts:128-139 | on success refetches the current page |
| FiscalYears.FiscalStore.RejectFiscalYear | src/pages/fiscal_year/store/useFiscalStore.ts:141-152 | on success refetches the current page |
| FiscalYears.DuplicateYearIsReported | src/pages/fiscal_year/store/useFiscalStore.ts:86-90 | a rejected duplicate year shows the server's `year` message and is rethrown without a refetch |
| Users.AsPage | src/pages/users/store/useManageUser.ts:78-85 | a body that is neither paginated nor an array reads as an empty list |
| Users.OddBodyEmptiesStore | src/pages/users/store/useManageUser.ts:78-85 | such a body leaves no users, 0 items, page 1 of 1 |
| Users.UserStore.constructor | src/pages/users/store/useManageUser.ts:58-64 | the initial fields; nothing sent |
| Users.UserStore.FetchUsers | src/pages/users/store/useManageUser.ts:66-93 | the parameters are sent unchanged; the fields become `Fetched`; errors prefer `detail` and are not rethrown; `loading` ends false |
| Users.UserStore.CreateUser | src/pages/users/store/useManageUser.ts:95-107 | on success refetches the current page; failure rethrown |
| Users.UserStore.UpdateUser | src/pages/users/store/useManageUser.ts:109-121 | on success refetches the current page |
| Users.UserStore.DeleteUser | src/pages/users/store/useManageUser.ts:123-135 | on success refetches the current page |
| Users.FailedRefetchIsSwallowed | src/pages/users/store/useManageUser.ts:87-101 | a failed refetch after a create keeps the page and list, reports `detail`, and the create does not throw |
| Sidebar.RoleOf | src/components/sidebar.tsx:36 | `user?.role \|\| 'VIEWER'` |
| Sidebar.UserName | src/components/sidebar.tsx:37 | `first last`, or "Guest User" |
| Sidebar.PermittedOnly | src/components/sidebar.tsx:51-54 | exactly the submenu entries the role may see |
| Sidebar.PermittedOnlyIdempotent | src/components/sidebar.tsx:51-54 | filtering a filtered submenu for the same role changes nothing |
| Sidebar.Narrowed | src/components/sidebar.tsx:50-55 | the item with its submenu narrowed; everything else kept |
| Sidebar.VisibleMembership | src/components/sidebar.tsx:41-69 | an item is shown exactly when a permitted, query-matching catalogue item narrows to it |
| Sidebar.VisibleSubmenusArePermitted | src/components/sidebar.tsx:44-54 | every shown item and every submenu entry on show admits the role |
| Sidebar.EmptyQueryKeepsPermitted | src/components/sidebar.tsx:58-66 | with no query every permitted item is shown |
| Sidebar.PruneOne | src/components/sidebar.tsx:47-55 | the filter's write-back narrows permitted items and leaves rejected ones untouched |
| Sidebar.Pruned | src/components/sidebar.tsx:42-55 | the catalogue after the write-back, item by item |
| Sidebar.SameRoleSeesSameMenu | src/components/sidebar.tsx:50-55 | after the write-back, the same role sees the same menu again |
| Sidebar.IsItemActive | src/components/sidebar.tsx:102-108 | no href is active |
| Sidebar.ActiveLabels | src/components/sidebar.tsx:74-78 | only captions of items with an active submenu entry |
| Sidebar.Dedup | src/components/sidebar.tsx:79 | `[...new Set(s)]`: the same members, no repeats, a repeat-free list unchanged |
| Sidebar.AutoExpanded | src/components/sidebar.tsx:73-80 | the union of the expanded and the active captions, without repeats |
| Sidebar.AutoExpandAddsNothing | src/components/sidebar.tsx:73-80 | no caption is active, so auto-expansion leaves a repeat-free list as it was |
| Sidebar.Drop | src/components/sidebar.tsx:97 | exactly the other captions remain |
| Sidebar.DropAppend | src/components/sidebar.tsx:97 | dropping distributes over concatenation |
| Sidebar.Toggled | src/components/sidebar.tsx:95-99 | the caption flips between open and closed and no other caption changes; opening appends |
| Sidebar.ToggleTwiceRestores | src/components/sidebar.tsx:95-99 | opening then closing an item restores the list |
| Sidebar.SearchExpanded | src/components/sidebar.tsx:141-149 | exactly the captions of catalogue items that match and have a non-empty submenu |
| Sidebar.Navigation | src/components/sidebar.tsx:114-130 | a submenu parent does nothing while expanded; otherwise navigate to a real href and close an open mobile sidebar |
| Sidebar.SidebarState.constructor | src/components/sidebar.tsx:28-31 | expanded, no expanded items, no query, nothing shown |
| Sidebar.SidebarState.FilterEffect | src/components/sidebar.tsx:41-70 | the shown items are `Visible` of the catalogue as it was; the catalogue is left `Pruned` |
| Sidebar.SidebarState.AutoExpandEffect | src/components/sidebar.tsx:73-80 | the expanded list becomes `AutoExpanded` |
| Sidebar.SidebarState.ToggleCollapse | src/components/sidebar.tsx:82-90 | flips the flag and reports it; collapsing clears expanded items and query; expanding keeps them |
| Sidebar.SidebarState.ToggleExpanded | src/components/sidebar.tsx:92-100 | ignored while collapsed, otherwise `Toggled` |
| Sidebar.SidebarState.HandleSearch | src/components/sidebar.tsx:138-151 | stores the query; a non-empty one sets the expanded list to `SearchExpanded` |
| Sidebar.OpenSubmenuKept | src/components/sidebar.tsx:51-54 | a submenu that names no roles is kept whole |
| Sidebar.OpenCatalogueKept | src/components/sidebar.tsx:50-55 | a catalogue whose submenus name no roles is left unchanged by the write-back |
| Sidebar.ShippedCatalogueIsUnharmed | src/components/data/sidebar_data.tsx:29-65 | the shipped catalogue names no roles in its submenus, so the write-back leaves it unchanged for every role |
| Sidebar.Visible | src/components/sidebar.tsx:41-69 | the menu for a role and query, computed without touching the catalogue |
| Sidebar.RoleSwitchLosesSubmenu | src/components/sidebar.tsx:50-55 | after a viewer's filter an admin sees an empty submenu where `Visible` shows the admin entry |
| Header.DisplayRole | src/components/Header.tsx:22 | `user?.role \|\| 'User'` |
| Header.DisplayName | src/components/Header.tsx:23 | `first last` for a user (always holding the space), "User" otherwise |
| Header.Initials | src/components/Header.tsx:32-39 | at most two characters: the first word-starting characters, upper-cased, in order |
| Header.WordStartsPastWord | src/components/Header.tsx:33-35 | a word without spaces contributes only its first character |
| Header.InitialsOfFullName | src/components/Header.tsx:23-39 | "first last" gives the two upper-cased first letters |
| Header.FormatRole | src/components/Header.tsx:42-44 | same length; the first character upper-cased, the rest lower-cased |
| Header.FormatRoleIdempotent | src/components/Header.tsx:42-44 | formatting twice is formatting once |
| Header.FormatRoleIgnoresCase | src/components/Header.tsx:42-44 | roles that differ only in case are shown alike |
| Header.LowerOfFormatRole | src/components/Header.tsx:42-48 | formatting keeps the lower-case form the colour switch reads |
| Header.SameLowerSameUpper | src/components/Header.tsx:43 | characters equal up to case upper-case alike |
| Header.RoleColor | src/components/Header.tsx:47-60 | the four known roles, ignoring case, get their own distinct colours; every other role gets gray |
| Header.RoleColorOfFormatted | src/components/Header.tsx:42-60 | a formatted role has the colour of the role it came from |
| Header.BackendRolesAreKnown | src/components/Header.tsx:48-58 | the upper-case roles the backend sends get their colours |
| Example.ExampleStore.constructor | src/store/useExampleStore.ts:18-20 | count 0, no user, not loading |
| Example.ExampleStore.Increment | src/store/useExampleStore.ts:23 | count up by one, nothing else changes |
| Example.ExampleStore.Decrement | src/store/useExampleStore.ts:24 | count down by one with no floor, nothing else changes |
| Example.ExampleStore.SetUser | src/store/useExampleStore.ts:25 | only the user changes |
| Example.ExampleStore.SetLoading | src/store/useExampleStore.ts:26 | only the loading flag changes |
| Example.ExampleStore.Reset | src/store/useExampleStore.ts:27 | exactly the initial state |
| Example.RoundTrips | src/store/useExampleStore.ts:18-27 | increment and decrement undo each other and keep the other fields; reset restores the initial values |
| Example.NoFloorAtZero | src/store/useExampleStore.ts:24 | two decrements of a fresh store give -2 |

## Left out

- HTTP, the redirect and toasts are not performed. Replies are inputs, requests go to a `sent` log, and the coordinator's network calls, logout and redirect go to an `effects` log. URLs are abstracted into `Request` constructors.
- Promise and event-loop machinery is not modelled. Each action runs to completion. The `isLoading` flag is true only inside a method, so interleaved actions and a render during a call are not modelled.
- The coordinator is two atomic steps, `OnResponseError` and `FinishRefresh`. This relies on there being no `await` between the `isRefreshing` check and setting the flag. The re-issued requests' own outcomes are not modelled.
- A resumed waiter sets its header and re-issues its request (src/lib/axios.ts:55-57) in a later continuation, after the leader's `apiClient` call at line 92. The header is set when the waiter is released, and the order of the waiters' re-issues among themselves is not modelled.
- A refresh reply without an `access` field is not modelled. The source would store `undefined` as the token.
- zustand `persist` and localStorage are left out. Only the `partialize` projection and a rehydrate that loads a snapshot are kept.
- React effect scheduling is not modelled. The sidebar effects are methods that the caller invokes. `onCollapseChange` and `onMobileOpenChange` become return values and `NavEffect`s.
- Text.Lower, Text.Upper: ASCII letters only. Unicode case mapping, which can change a string's length, is not modelled.
- Numbers are unbounded integers. Entry values and capacities are integers here, where the source uses floating point.
- The data-category sector filter may be a number or a string in the source. It is a number here.
- CategoryTree.Flatten: requires distinct category ids. With a repeated id, the source's recursion need not terminate.
- CategoryTree.SortById: the sort is modelled as returning a sorted copy, not as sorting the group array in place. The order of equal ids cannot arise, because ids are distinct.
- EconomicEntries.Merged: a patch field that is present but `undefined` is treated as absent. A JavaScript spread would copy the `undefined`.
- A queued request is re-issued with its `_retry` flag still down, so one request can lead a second refresh (TokenRefresh.ResumedWaiterCanRefreshAgain). The model follows the code.
- Page components, routing, dialogs, API wrappers and date formatting are not part of this model.

## Findings

| source | as written | input that shows it | evidently intended | confidence | as-written member | corrected member |
|---|---|---|---|---|---|---|
| src/components/sidebar.tsx:50-55 | The role filter assigns the narrowed submenu back into the module-level `sidebarItems`. A later render for another role starts from the pruned catalogue. | A catalogue entry "Reports" with the sub-entry "Audit Trail" restricted to ADMIN. Filter for VIEWER, then filter for ADMIN. The admin sees "Reports" with an empty submenu. | Each render filters a copy and leaves the catalogue intact, so the menu depends only on the role and the query. | not executed; latent with the shipped catalogue, which names no roles (Sidebar.ShippedCatalogueIsUnharmed) | Sidebar.RoleSwitchLosesSubmenu | Sidebar.Visible |
