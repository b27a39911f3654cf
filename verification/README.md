# Search-filter visibility and admin log navigation, modelled in Dafny

This project models two Angular components of the DSpace front end.

**`SearchFilterComponent`** (module `SearchFilter`, `search_filter.dfy`) is one
collapsible filter in the search sidebar.

- The slide-animation flags `closed` and `notab` live in a class with the
  component's fields. `StartSlide` and `FinishSlide` update them in place and
  are specified by the pure functions `Started` and `Finished`. `Animate`
  replays a run of animations, each started and finished before the next one
  starts. The lemmas about it show that a run which ends with an opening or
  closing animation ends with both flags set by that animation, and that
  animations in which neither state is `collapsed` change nothing.
- The `active$` stream ("should this filter be shown") is a pure function of
  three things: the operator set, the applied-filter snapshots, and the
  facet-lookup results each snapshot received before the next one superseded
  it. The output starts with `true` (`startWith(true)`). For each snapshot it
  then holds `[true]` when an applied filter uses an operator of the set.
  Otherwise it holds one value per non-loading lookup result:
  `payload?.totalElements > 0`, where an absent payload counts as not greater
  than zero.
- The class records the calls the component makes on the filter store
  (`initializeFilter`, `expand`, `toggle`) as data, in order. On init, `expand`
  is requested only when the first applied-filter snapshot is non-empty
  (`take(1)`).

**`AdminNotifyLogsResultComponent`** (module `AdminNotifyLogsResult`,
`admin_notify_logs_result.dfy`) resolves the current URL from the activated
route. A route is given by its URL segments, each already serialised to its
string. Within a route the segments are joined with `/`, and the route strings
from root to leaf are joined with `/` again. `resetDefaultConfiguration` is
modelled as the navigation request it would issue: a one-element command list
holding that URL, and the query parameters `configuration` and `view = Table`.
`Split` is the inverse of `Join` on a non-empty list of parts that contain no
`/`. The lemmas show that splitting the resolved URL at `/` gives back every
route's segments, with one empty piece for each route without segments, when
no segment holds `/` (the router percent-encodes it). So an empty root route followed by further
routes yields an absolute URL; an empty root route on its own yields `""`.

Two details of the code are worth stating plainly:

- `closed` becomes false only when an opening animation finishes (`finishSlide`,
  search-filter.component.ts:136-139). While an opening animation runs,
  `closed` keeps its previous value.
- The lookup branch (`filter(!isLoading)` then `map`, lines 179-183) emits once
  for every non-loading result the lookup delivers before it is superseded
  (`LookupEmissions`, `LookupEmissionsAt`). The first of these is the
  snapshot's `Decision`. The bound of one value per snapshot therefore needs
  each lookup to settle at most once (`SettlesAtMostOnce`,
  `ActiveStreamBound`).

## Model

| member | source | states |
|---|---|---|
| `SearchFilter.OperatorFilters` | src/app/shared/search/search-filters/search-filter/search-filter.component.ts:176 | the filtered list holds exactly the applied filters whose operator is in the operator set, and it is no longer than the input |
| `SearchFilter.HasOperatorFilter` | src/app/shared/search/search-filters/search-filter/search-filter.component.ts:176 | `isNotEmpty` of the filtered list holds iff some applied filter's operator is in the set |
| `SearchFilter.FirstSettled` | src/app/shared/search/search-filters/search-filter/search-filter.component.ts:180 | the index of the first non-loading lookup result; every earlier result is loading, and the index is the length when all are loading |
| `SearchFilter.ShowsResults` | src/app/shared/search/search-filters/search-filter/search-filter.component.ts:182 | the body is `payload?.totalElements > 0`: an absent payload gives false, a payload with `totalElements <= 0` gives false, and a positive count gives true |
| `SearchFilter.CountSettled` | src/app/shared/search/search-filters/search-filter/search-filter.component.ts:180 | the number of results that pass `filter(!isLoading)`, at most the number of results |
| `SearchFilter.LookupEmissions` | src/app/shared/search/search-filters/search-filter/search-filter.component.ts:179-184 | the lookup branch emits exactly as many values as there are non-loading results, nothing iff every result is loading, and its first value is `totalElements > 0` of the first non-loading result |
| `SearchFilter.LookupEmissionsAt` | src/app/shared/search/search-filters/search-filter/search-filter.component.ts:179-184 | every non-loading result is emitted in arrival order: the result at index `i` gives the value at the position equal to the number of non-loading results before it, and that value is `payload?.totalElements > 0` of the result |
| `SearchFilter.LookupLastValue` | src/app/shared/search/search-filters/search-filter/search-filter.component.ts:179-184 | when the lookup branch has emitted, its last value is `payload?.totalElements > 0` of the last non-loading result |
| `SearchFilter.Decision` | src/app/shared/search/search-filters/search-filter/search-filter.component.ts:175-185 | an operator filter gives `true` whatever the lookup returns; otherwise there is no decision iff every result is loading, and the decision is true iff the first non-loading result has a payload with `totalElements > 0` (an absent payload gives false) |
| `SearchFilter.SnapshotEmissions` | src/app/shared/search/search-filters/search-filter/search-filter.component.ts:175-186 | a snapshot's emissions are empty iff it has no decision, and otherwise begin with its decision; with an operator filter they are exactly `[true]` |
| `SearchFilter.EmissionsAppend` | src/app/shared/search/search-filters/search-filter/search-filter.component.ts:175-186 | `Emissions`, the switchMap output, concatenates each snapshot's emissions in order (its body); appending a snapshot appends exactly that snapshot's own emissions |
| `SearchFilter.EmissionsEmptyIff` | src/app/shared/search/search-filters/search-filter/search-filter.component.ts:175-186 | the switchMap output is empty iff no snapshot has a decision, so `active$` stays at its initial `true` until some snapshot has an operator filter or a non-loading result |
| `SearchFilter.ActiveStream` | src/app/shared/search/search-filters/search-filter/search-filter.component.ts:170-187 | the `active$` sequence is never empty and its first value is `true` |
| `SearchFilter.LookupEmitsAtMostOnce` | src/app/shared/search/search-filters/search-filter/search-filter.component.ts:179-184 | a lookup that settles at most once makes the branch emit at most one value |
| `SearchFilter.ActiveStreamAppend` | src/app/shared/search/search-filters/search-filter/search-filter.component.ts:171-187 | a new snapshot only appends its own emissions; values already emitted are never revised |
| `SearchFilter.SnapshotLastValue` | src/app/shared/search/search-filters/search-filter/search-filter.component.ts:175-185 | a snapshot with an operator filter or some non-loading result emits something; its last value is `true` with an operator filter, otherwise `payload?.totalElements > 0` of its last non-loading result |
| `SearchFilter.LatestSnapshotDecides` | src/app/shared/search/search-filters/search-filter/search-filter.component.ts:175-187 | once the latest snapshot has an answer (an operator filter, or some non-loading result), the stream's last value comes from it alone: `true` with an operator filter, otherwise `payload?.totalElements > 0` of its last non-loading result, whatever earlier snapshots emitted (switchMap's last value wins) |
| `SearchFilter.ActiveStreamBound` | src/app/shared/search/search-filters/search-filter/search-filter.component.ts:170-187 | when every lookup settles at most once, the stream holds the initial `true` and at most one decision per snapshot |
| `SearchFilter.OperatorFilterKeepsActive` | src/app/shared/search/search-filters/search-filter/search-filter.component.ts:175-177 | while every snapshot has an operator filter, the stream is `true` at every position, one value per snapshot after the initial one |
| `SearchFilter.InitialExpand` | src/app/shared/search/search-filters/search-filter/search-filter.component.ts:99-103 | at most one request, and it is `expand(filter.name)`; it is requested iff the first applied-filter snapshot is non-empty |
| `SearchFilter.InitialExpandIgnoresLaterSnapshots` | src/app/shared/search/search-filters/search-filter/search-filter.component.ts:99 | because of `take(1)`, snapshots after the first never change the init requests |
| `SearchFilter.Started` | src/app/shared/search/search-filters/search-filter/search-filter.component.ts:149-156 | `closed` is set when the animation goes to `collapsed` and `notab` is cleared when it comes from `collapsed`; otherwise each flag keeps its value |
| `SearchFilter.Finished` | src/app/shared/search/search-filters/search-filter/search-filter.component.ts:136-143 | `closed` is cleared when the animation comes from `collapsed` and `notab` is set when it goes to `collapsed`; otherwise each flag keeps its value |
| `SearchFilter.LastTransitionDecides` | src/app/shared/search/search-filters/search-filter/search-filter.component.ts:136-156 | whatever the starting flags and the earlier animations, a completed closing animation leaves both flags true and a completed opening one leaves both false |
| `SearchFilter.IdleFlagsAgree` | src/app/shared/search/search-filters/search-filter/search-filter.component.ts:136-156 | after any non-empty run of completed opening and closing animations, `closed` equals `notab` |
| `SearchFilter.NeutralAnimationsKeepFlags` | src/app/shared/search/search-filters/search-filter/search-filter.component.ts:136-156 | animations in which neither state is `collapsed` leave both flags unchanged |
| `SearchFilter.SearchFilterComponent.constructor` | src/app/shared/search/search-filters/search-filter/search-filter.component.ts:49-76 | the flags start out false (`closed` and `notab` have no initialiser and so are falsy), `focusBox` is false, and there are no subscriptions and no store requests |
| `SearchFilter.SearchFilterComponent.OnInit` | src/app/shared/search/search-filters/search-filter/search-filter.component.ts:94-104 | appends `initializeFilter(filter)` followed by `InitialExpand` of the snapshots to the store requests, and appends one subscription to `subs`; the flags and `focusBox` are not touched |
| `SearchFilter.SearchFilterComponent.ToggleFilter` | src/app/shared/search/search-filters/search-filter/search-filter.component.ts:113-115 | appends `toggle(filter.name)` to the store requests and changes nothing else |
| `SearchFilter.SearchFilterComponent.FinishSlide` | src/app/shared/search/search-filters/search-filter/search-filter.component.ts:136-143 | the new flags are `Finished` of the old ones; no other field changes |
| `SearchFilter.SearchFilterComponent.StartSlide` | src/app/shared/search/search-filters/search-filter/search-filter.component.ts:149-156 | the new flags are `Started` of the old ones; no other field changes |
| `AdminNotifyLogsResult.Join` | src/app/admin/admin-notify-dashboard/admin-notify-logs/admin-notify-logs-result/admin-notify-logs-result.component.ts:57 | joining nothing gives the empty string; otherwise the length is the parts' total length plus one separator between each pair of consecutive parts |
| `AdminNotifyLogsResult.JoinAppend` | src/app/admin/admin-notify-dashboard/admin-notify-logs/admin-notify-logs-result/admin-notify-logs-result.component.ts:57 | joining two non-empty lists in turn equals joining their concatenation |
| `AdminNotifyLogsResult.SplitJoin` | src/app/admin/admin-notify-dashboard/admin-notify-logs/admin-notify-logs-result/admin-notify-logs-result.component.ts:57 | splitting at the separator undoes joining a non-empty list whose parts are free of the separator |
| `AdminNotifyLogsResult.RouteString` | src/app/admin/admin-notify-dashboard/admin-notify-logs/admin-notify-logs-result/admin-notify-logs-result.component.ts:57 | the body is the inner `v.url.map(segment => segment.toString()).join('/')`: a route without segments gives the empty string, and one segment gives that segment unchanged |
| `AdminNotifyLogsResult.ResolvedUrl` | src/app/admin/admin-notify-dashboard/admin-notify-logs/admin-notify-logs-result/admin-notify-logs-result.component.ts:56-58 | an empty path gives the empty string; one route with one segment gives that segment unchanged |
| `AdminNotifyLogsResult.ResolvedUrlIsJoinOfPieces` | src/app/admin/admin-notify-dashboard/admin-notify-logs/admin-notify-logs-result/admin-notify-logs-result.component.ts:57 | the resolved URL is the segments of every route, root to leaf, joined with `/`; a route without segments contributes one empty piece |
| `AdminNotifyLogsResult.SplitResolvedUrl` | src/app/admin/admin-notify-dashboard/admin-notify-logs/admin-notify-logs-result/admin-notify-logs-result.component.ts:57 | for a non-empty path (`pathFromRoot` always holds the route itself), splitting the resolved URL at `/` gives back every route's segments in order, with one empty piece for each route without segments, when no segment holds a `/` |
| `AdminNotifyLogsResult.EmptyRootIsAbsolute` | src/app/admin/admin-notify-dashboard/admin-notify-logs/admin-notify-logs-result/admin-notify-logs-result.component.ts:57 | an empty root route followed by further routes yields `/` followed by the URL of those routes |
| `AdminNotifyLogsResult.ResetDefaultConfiguration` | src/app/admin/admin-notify-dashboard/admin-notify-logs/admin-notify-logs-result/admin-notify-logs-result.component.ts:41-48 | one command, the resolved URL of the current snapshot; the query parameters are exactly `configuration = defaultConfiguration` and `view = Table` |
| `AdminNotifyLogsResult.ResetNavigatesToCurrentRoute` | src/app/admin/admin-notify-dashboard/admin-notify-logs/admin-notify-logs-result/admin-notify-logs-result.component.ts:41-47 | under an empty root route the reset navigates to an absolute URL whose pieces after the leading `/` are the segments of the routes below |

## Left out

- Stream mechanics (`combineLatest`, `switchMap` cancellation, `startWith` timing, subscription teardown in `ngOnDestroy`): they concern asynchrony. Each snapshot instead carries the finite list of lookup results that arrived before it was superseded.
- A failed facet request normally arrives as a non-loading result without a payload. Line 180 lets it through and line 182 maps it to `false`; the model covers it as `payload == None`. Only an error thrown by the stream itself is left out: the component does not catch it, so it stops `active$`.
- The search options: they only parameterise the facet lookup, whose results are inputs here.
- `FACET_OPERATORS` is defined in search-facet-filter.component.ts, which is not part of this model. The operator set is a parameter.
- `isNotEmpty` comes from empty.util.ts, which is not part of this model. On arrays it is taken as "length greater than zero".
- `SearchFilterService` (`initializeFilter`, `expand`, `toggle`, `isCollapsed`): its store is not part of this model. The component's calls are recorded as `StoreCommand` values; the collapse state they change is not modelled.
- `OnInit` assumes that `appliedFilters$` delivers its first snapshot during subscription, so the `expand` request comes straight after `initializeFilter`, before any later request such as a toggle. `appliedFilters$` and `active$`, which `ngOnInit` assigns, are modelled by the snapshot inputs and `ActiveStream`, not as fields; `collapsed$` is the store's `isCollapsed` and is left out with the store.
- `SequenceService.next()` and the `regionId`/`toggleId` getters: they only build DOM ids from a counter owned by another service.
- `closed` and `notab` start as `undefined` in the component. The model starts them as `false`, which reads the same wherever they are read.
- In `AdminNotifyLogsResultComponent.ngOnInit`, the route-reuse override and the `getCurrentConfiguration` call are router plumbing and a foreign call.
- `Animate`, `LastTransitionDecides` and `IdleFlagsAgree` assume animations do not overlap: each event's `startSlide` and `finishSlide` run before the next event's `startSlide`. The class methods allow interleaved callbacks, where the last animation to finish need not decide both flags (start closing, start opening, finish closing, finish opening leaves `closed` false and `notab` true).
- `router.navigate` itself is not performed. `ResetDefaultConfiguration` returns the request.
- `UrlSegment.toString` (path encoding and matrix parameters) belongs to the Angular router. Segments are given as their serialised strings.
- The `ViewMode` enum is defined in view-mode.model.ts, which is not part of this model. Its members appear as datatype constructors without their string values.
- The theme subclasses `FooterComponent` (it only sets `showTopFooter = true`) and `FeedbackFormComponent` (it is empty) have no logic.
