/**
 * SearchFilterComponent: one collapsible filter in the search sidebar.
 *
 * Three pieces of behaviour are modelled:
 *  - the slide-animation flags `closed` and `notab`, updated in place by the
 *    animation callbacks (class SearchFilterComponent, spec functions Started
 *    and Finished);
 *  - the "should this filter be shown" stream `active$`, as a pure function of
 *    the operator set, the applied-filter snapshots and the results each facet
 *    lookup delivered before it was superseded;
 *  - the requests the component sends to the filter store on init and toggle.
 */
module SearchFilter {

  datatype Option<T> = None | Some(value: T)

  /** A value selected for a filter, with the operator it is matched by. */
  datatype AppliedFilter = AppliedFilter(filter: string, operator: string, labelText: string, value: string)

  /** The payload of a facet-values lookup; only its total count is read. */
  datatype FacetValues = FacetValues(totalElements: int)

  /** One emission of the facet-values lookup: loading or settled, with a payload that may be absent. */
  datatype FacetValuesResult = FacetValuesResult(isLoading: bool, payload: Option<FacetValues>)

  /**
   * One emission of combineLatest(appliedFilters$, searchOptions): the applied
   * filters at that moment, and the results that the facet lookup started for
   * this snapshot delivers before the next snapshot supersedes it (switchMap).
   * The search options only parameterise that lookup, so they appear here
   * through `lookup` alone.
   */
  datatype Snapshot = Snapshot(applied: seq<AppliedFilter>, lookup: seq<FacetValuesResult>)

  // ---------------------------------------------------------------------------
  // The decision inside isActive
  // ---------------------------------------------------------------------------

  /** The applied filters whose operator is one of `operators`, in their original order. */
  function OperatorFilters(operators: set<string>, applied: seq<AppliedFilter>): (r: seq<AppliedFilter>)
    ensures |r| <= |applied|
    ensures forall f :: f in r <==> f in applied && f.operator in operators
  {
    if applied == [] then []
    else if applied[0].operator in operators then [applied[0]] + OperatorFilters(operators, applied[1..])
    else OperatorFilters(operators, applied[1..])
  }

  /** isNotEmpty of the operator filters: some applied filter uses an operator of the set. */
  predicate HasOperatorFilter(operators: set<string>, applied: seq<AppliedFilter>)
    ensures HasOperatorFilter(operators, applied) <==>
      exists i :: 0 <= i < |applied| && applied[i].operator in operators
  {
    var matching := OperatorFilters(operators, applied);
    assert |matching| > 0 ==> matching[0] in applied;
    |matching| > 0
  }

  /** `payload?.totalElements > 0`: an absent payload is not greater than zero. */
  predicate ShowsResults(result: FacetValuesResult)
    ensures result.payload.None? ==> !ShowsResults(result)
    ensures result.payload.Some? && result.payload.value.totalElements <= 0 ==> !ShowsResults(result)
    ensures result.payload.Some? && result.payload.value.totalElements > 0 ==> ShowsResults(result)
  {
    result.payload.Some? && result.payload.value.totalElements > 0
  }

  /** The index of the first result that is not loading, or |results| when every result is loading. */
  function FirstSettled(results: seq<FacetValuesResult>): (k: nat)
    ensures k <= |results|
    ensures forall j :: 0 <= j < k ==> results[j].isLoading
    ensures k < |results| ==> !results[k].isLoading
  {
    if results == [] || !results[0].isLoading then 0
    else 1 + FirstSettled(results[1..])
  }

  /**
   * What the lookup branch emits: `filter(!isLoading)` then `map(ShowsResults)`,
   * one value per settled result, in arrival order.
   */
  function LookupEmissions(results: seq<FacetValuesResult>): (r: seq<bool>)
    ensures |r| == CountSettled(results)
    ensures r == [] <==> FirstSettled(results) == |results|
    ensures r != [] ==> r[0] == ShowsResults(results[FirstSettled(results)])
  {
    if results == [] then []
    else if results[0].isLoading then LookupEmissions(results[1..])
    else [ShowsResults(results[0])] + LookupEmissions(results[1..])
  }

  /** The number of results that are not loading. */
  function CountSettled(results: seq<FacetValuesResult>): (n: nat)
    ensures n <= |results|
  {
    if results == [] then 0
    else (if results[0].isLoading then 0 else 1) + CountSettled(results[1..])
  }

  /**
   * Each non-loading result is emitted, in arrival order: the result at index
   * `i` gives the value at the position counting the non-loading results before it.
   */
  lemma {:induction false} LookupEmissionsAt(results: seq<FacetValuesResult>, i: nat)
    requires i < |results| && !results[i].isLoading
    ensures CountSettled(results[..i]) < |LookupEmissions(results)|
    ensures LookupEmissions(results)[CountSettled(results[..i])] == ShowsResults(results[i])
  {
    if i == 0 {
      assert results[..0] == [];
    } else {
      var rest := results[1..];
      LookupEmissionsAt(rest, i - 1);
      assert results[..i][1..] == rest[..i - 1];
      assert results[..i][0] == results[0];
    }
  }

  /**
   * When the lookup branch has emitted, its last value is `ShowsResults` of the
   * last non-loading result.
   */
  lemma {:induction false} LookupLastValue(results: seq<FacetValuesResult>)
    requires LookupEmissions(results) != []
    ensures var r := LookupEmissions(results);
      exists k :: 0 <= k < |results| && !results[k].isLoading
        && (forall j :: k < j < |results| ==> results[j].isLoading)
        && r[|r| - 1] == ShowsResults(results[k])
  {
    var rest := results[1..];
    var r := LookupEmissions(results);
    if LookupEmissions(rest) == [] {
      assert !results[0].isLoading;
      assert forall j :: 0 < j < |results| ==> results[j].isLoading by {
        forall j | 0 < j < |results| ensures results[j].isLoading {
          assert rest[j - 1] == results[j];
        }
      }
      assert r[|r| - 1] == ShowsResults(results[0]);
      assert 0 <= 0 < |results| && !results[0].isLoading
        && (forall j :: 0 < j < |results| ==> results[j].isLoading)
        && r[|r| - 1] == ShowsResults(results[0]);
    } else {
      LookupLastValue(rest);
      var k :| 0 <= k < |rest| && !rest[k].isLoading
        && (forall j :: k < j < |rest| ==> rest[j].isLoading)
        && LookupEmissions(rest)[|LookupEmissions(rest)| - 1] == ShowsResults(rest[k]);
      assert results[k + 1] == rest[k];
      assert forall j :: k + 1 < j < |results| ==> results[j] == rest[j - 1];
      assert r[|r| - 1] == ShowsResults(results[k + 1]);
      assert 0 <= k + 1 < |results| && !results[k + 1].isLoading
        && (forall j :: k + 1 < j < |results| ==> results[j].isLoading)
        && r[|r| - 1] == ShowsResults(results[k + 1]);
    }
  }

  /**
   * The decision for one snapshot: the first value the switchMap branch emits
   * for it, or None when the lookup has delivered only loading results.
   */
  function Decision(operators: set<string>, applied: seq<AppliedFilter>, results: seq<FacetValuesResult>): (d: Option<bool>)
    ensures HasOperatorFilter(operators, applied) ==> d == Some(true)
    ensures !HasOperatorFilter(operators, applied) ==>
      (d.None? <==> forall i :: 0 <= i < |results| ==> results[i].isLoading)
    ensures !HasOperatorFilter(operators, applied) && d.Some? ==>
      exists k :: 0 <= k < |results| && !results[k].isLoading
        && (forall j :: 0 <= j < k ==> results[j].isLoading)
        && d.value == (results[k].payload.Some? && results[k].payload.value.totalElements > 0)
  {
    if HasOperatorFilter(operators, applied) then Some(true)
    else
      var k := FirstSettled(results);
      if k == |results| then None else Some(ShowsResults(results[k]))
  }

  /** Everything the switchMap branch emits for one snapshot. */
  function SnapshotEmissions(operators: set<string>, s: Snapshot): (r: seq<bool>)
    ensures r == [] <==> Decision(operators, s.applied, s.lookup).None?
    ensures r != [] ==> Decision(operators, s.applied, s.lookup) == Some(r[0])
    ensures HasOperatorFilter(operators, s.applied) ==> r == [true]
  {
    if HasOperatorFilter(operators, s.applied) then [true] else LookupEmissions(s.lookup)
  }

  /** The emissions of all snapshots, in order. */
  function Emissions(operators: set<string>, snapshots: seq<Snapshot>): (r: seq<bool>)
  {
    if snapshots == [] then []
    else SnapshotEmissions(operators, snapshots[0]) + Emissions(operators, snapshots[1..])
  }

  /** The stream stays at its initial `true` exactly when no snapshot has a decision yet. */
  lemma {:induction false} EmissionsEmptyIff(operators: set<string>, snapshots: seq<Snapshot>)
    ensures Emissions(operators, snapshots) == [] <==>
      forall k :: 0 <= k < |snapshots| ==> Decision(operators, snapshots[k].applied, snapshots[k].lookup).None?
  {
    if snapshots != [] {
      var tail := snapshots[1..];
      EmissionsEmptyIff(operators, tail);
      var first := SnapshotEmissions(operators, snapshots[0]);
      assert Emissions(operators, snapshots) == first + Emissions(operators, tail);
      assert first == [] <==> Decision(operators, snapshots[0].applied, snapshots[0].lookup).None?;
      assert forall k :: 0 < k < |snapshots| ==> tail[k - 1] == snapshots[k];
    }
  }

  /** The whole `active$` sequence: `startWith(true)` before the emissions of every snapshot. */
  function ActiveStream(operators: set<string>, snapshots: seq<Snapshot>): (r: seq<bool>)
    ensures |r| >= 1 && r[0]
  {
    [true] + Emissions(operators, snapshots)
  }

  /** The lookup settles at most once before it is superseded. */
  predicate SettlesAtMostOnce(results: seq<FacetValuesResult>)
  {
    forall i, j :: 0 <= i < j < |results| && !results[i].isLoading ==> results[j].isLoading
  }

  lemma {:induction false} LookupEmitsAtMostOnce(results: seq<FacetValuesResult>)
    requires SettlesAtMostOnce(results)
    ensures |LookupEmissions(results)| <= 1
  {
    if results != [] {
      var rest := results[1..];
      assert SettlesAtMostOnce(rest) by {
        forall i, j | 0 <= i < j < |rest| && !rest[i].isLoading
          ensures rest[j].isLoading
        {
          assert results[i + 1] == rest[i] && results[j + 1] == rest[j];
        }
      }
      LookupEmitsAtMostOnce(rest);
      if !results[0].isLoading {
        assert forall j :: 0 < j < |results| ==> results[j].isLoading;
        assert FirstSettled(rest) == |rest|;
      }
    }
  }

  /** A new snapshot only appends to what was emitted before: earlier values are never revised. */
  lemma {:induction false} ActiveStreamAppend(operators: set<string>, snapshots: seq<Snapshot>, s: Snapshot)
    ensures ActiveStream(operators, snapshots + [s]) == ActiveStream(operators, snapshots) + SnapshotEmissions(operators, s)
  {
    EmissionsAppend(operators, snapshots, s);
  }

  lemma {:induction false} EmissionsAppend(operators: set<string>, snapshots: seq<Snapshot>, s: Snapshot)
    ensures Emissions(operators, snapshots + [s]) == Emissions(operators, snapshots) + SnapshotEmissions(operators, s)
  {
    if snapshots == [] {
      assert [] + [s] == [s];
    } else {
      assert (snapshots + [s])[1..] == snapshots[1..] + [s];
      EmissionsAppend(operators, snapshots[1..], s);
    }
  }

  /**
   * switchMap's last-value-wins: once the latest snapshot has an answer, the
   * stream's last value comes from that snapshot alone: `true` with an operator
   * filter, otherwise `payload?.totalElements > 0` of its last non-loading result.
   */
  lemma LatestSnapshotDecides(operators: set<string>, snapshots: seq<Snapshot>, s: Snapshot)
    requires HasOperatorFilter(operators, s.applied) || exists i :: 0 <= i < |s.lookup| && !s.lookup[i].isLoading
    ensures var r := ActiveStream(operators, snapshots + [s]);
      (HasOperatorFilter(operators, s.applied) ==> r[|r| - 1])
      && (!HasOperatorFilter(operators, s.applied) ==>
        exists k :: 0 <= k < |s.lookup| && !s.lookup[k].isLoading
          && (forall j :: k < j < |s.lookup| ==> s.lookup[j].isLoading)
          && r[|r| - 1] == (s.lookup[k].payload.Some? && s.lookup[k].payload.value.totalElements > 0))
  {
    ActiveStreamAppend(operators, snapshots, s);
    SnapshotLastValue(operators, s);
  }

  /** The last value a snapshot emits, in terms of its inputs. */
  lemma SnapshotLastValue(operators: set<string>, s: Snapshot)
    requires HasOperatorFilter(operators, s.applied) || exists i :: 0 <= i < |s.lookup| && !s.lookup[i].isLoading
    ensures var e := SnapshotEmissions(operators, s);
      e != []
      && (HasOperatorFilter(operators, s.applied) ==> e[|e| - 1])
      && (!HasOperatorFilter(operators, s.applied) ==>
        exists k :: 0 <= k < |s.lookup| && !s.lookup[k].isLoading
          && (forall j :: k < j < |s.lookup| ==> s.lookup[j].isLoading)
          && e[|e| - 1] == (s.lookup[k].payload.Some? && s.lookup[k].payload.value.totalElements > 0))
  {
    if !HasOperatorFilter(operators, s.applied) {
      var i :| 0 <= i < |s.lookup| && !s.lookup[i].isLoading;
      assert FirstSettled(s.lookup) <= i;
      LookupLastValue(s.lookup);
    }
  }

  /** When every lookup settles at most once, the stream holds `true` and at most one decision per snapshot. */
  lemma {:induction false} ActiveStreamBound(operators: set<string>, snapshots: seq<Snapshot>)
    requires forall k :: 0 <= k < |snapshots| ==> SettlesAtMostOnce(snapshots[k].lookup)
    ensures |ActiveStream(operators, snapshots)| <= 1 + |snapshots|
  {
    EmissionsBound(operators, snapshots);
  }

  lemma {:induction false} EmissionsBound(operators: set<string>, snapshots: seq<Snapshot>)
    requires forall k :: 0 <= k < |snapshots| ==> SettlesAtMostOnce(snapshots[k].lookup)
    ensures |Emissions(operators, snapshots)| <= |snapshots|
  {
    if snapshots != [] {
      LookupEmitsAtMostOnce(snapshots[0].lookup);
      EmissionsBound(operators, snapshots[1..]);
    }
  }

  /** While an operator-based filter stays applied, the filter is shown at every step, whatever the lookups return. */
  lemma {:induction false} OperatorFilterKeepsActive(operators: set<string>, snapshots: seq<Snapshot>)
    requires forall k :: 0 <= k < |snapshots| ==> HasOperatorFilter(operators, snapshots[k].applied)
    ensures var r := ActiveStream(operators, snapshots);
      |r| == 1 + |snapshots| && forall i :: 0 <= i < |r| ==> r[i]
  {
    EmissionsAllTrue(operators, snapshots);
  }

  lemma {:induction false} EmissionsAllTrue(operators: set<string>, snapshots: seq<Snapshot>)
    requires forall k :: 0 <= k < |snapshots| ==> HasOperatorFilter(operators, snapshots[k].applied)
    ensures var r := Emissions(operators, snapshots);
      |r| == |snapshots| && forall i :: 0 <= i < |r| ==> r[i]
  {
    if snapshots != [] {
      EmissionsAllTrue(operators, snapshots[1..]);
    }
  }

  // ---------------------------------------------------------------------------
  // Requests sent to the filter store
  // ---------------------------------------------------------------------------

  /** A call the component makes on the shared filter store, recorded rather than performed. */
  datatype StoreCommand = InitializeFilter(name: string) | Expand(name: string) | Toggle(name: string)

  /** What the component subscribes to and keeps in `subs`. */
  datatype Subscription = FirstAppliedFilters(filterName: string)

  /**
   * The expand requests of the take(1) subscription in ngOnInit, given the
   * snapshots `appliedFilters$` emits: only the first snapshot is seen.
   */
  function InitialExpand(name: string, appliedSnapshots: seq<seq<AppliedFilter>>): (r: seq<StoreCommand>)
    ensures |r| <= 1
    ensures r == [Expand(name)] <==> |appliedSnapshots| > 0 && |appliedSnapshots[0]| > 0
    ensures forall c :: c in r ==> c == Expand(name)
  {
    if |appliedSnapshots| > 0 && |appliedSnapshots[0]| > 0 then [Expand(name)] else []
  }

  /** Snapshots after the first never cause an expand request. */
  lemma InitialExpandIgnoresLaterSnapshots(name: string, first: seq<AppliedFilter>, later: seq<seq<AppliedFilter>>)
    ensures InitialExpand(name, [first] + later) == InitialExpand(name, [first])
  {
  }

  // ---------------------------------------------------------------------------
  // Slide flags
  // ---------------------------------------------------------------------------

  const Collapsed: string := "collapsed"

  /** The fromState and toState of an animation event. */
  datatype SlideEvent = SlideEvent(fromState: string, toState: string)

  datatype SlideFlags = SlideFlags(closed: bool, notab: bool)

  /** The flags after startSlide. */
  function Started(f: SlideFlags, e: SlideEvent): (g: SlideFlags)
    ensures e.toState == Collapsed ==> g.closed
    ensures e.toState != Collapsed ==> g.closed == f.closed
    ensures e.fromState == Collapsed ==> !g.notab
    ensures e.fromState != Collapsed ==> g.notab == f.notab
  {
    SlideFlags(if e.toState == Collapsed then true else f.closed,
               if e.fromState == Collapsed then false else f.notab)
  }

  /** The flags after finishSlide. */
  function Finished(f: SlideFlags, e: SlideEvent): (g: SlideFlags)
    ensures e.fromState == Collapsed ==> !g.closed
    ensures e.fromState != Collapsed ==> g.closed == f.closed
    ensures e.toState == Collapsed ==> g.notab
    ensures e.toState != Collapsed ==> g.notab == f.notab
  {
    SlideFlags(if e.fromState == Collapsed then false else f.closed,
               if e.toState == Collapsed then true else f.notab)
  }

  predicate Closing(e: SlideEvent) { e.toState == Collapsed && e.fromState != Collapsed }

  predicate Opening(e: SlideEvent) { e.fromState == Collapsed && e.toState != Collapsed }

  /** The flags after each event of `events` has started and then finished, in order. */
  function Animate(f: SlideFlags, events: seq<SlideEvent>): (g: SlideFlags)
    decreases |events|
  {
    if events == [] then f
    else Animate(Finished(Started(f, events[0]), events[0]), events[1..])
  }

  /**
   * Whatever the flags were, once a closing animation has run to its end both
   * flags are set, and once an opening one has, both are clear.
   */
  lemma {:induction false} LastTransitionDecides(f: SlideFlags, events: seq<SlideEvent>)
    requires |events| > 0
    ensures Closing(events[|events| - 1]) ==> Animate(f, events) == SlideFlags(true, true)
    ensures Opening(events[|events| - 1]) ==> Animate(f, events) == SlideFlags(false, false)
    decreases |events|
  {
    if |events| > 1 {
      LastTransitionDecides(Finished(Started(f, events[0]), events[0]), events[1..]);
    }
  }

  /** After any non-empty run of opening and closing animations, `closed` and `notab` agree. */
  lemma IdleFlagsAgree(f: SlideFlags, events: seq<SlideEvent>)
    requires |events| > 0
    requires forall i :: 0 <= i < |events| ==> Closing(events[i]) || Opening(events[i])
    ensures Animate(f, events).closed == Animate(f, events).notab
  {
    LastTransitionDecides(f, events);
  }

  /** An animation between two states neither of which is collapsed leaves the flags as they were. */
  lemma {:induction false} NeutralAnimationsKeepFlags(f: SlideFlags, events: seq<SlideEvent>)
    requires forall i :: 0 <= i < |events| ==> events[i].fromState != Collapsed && events[i].toState != Collapsed
    ensures Animate(f, events) == f
    decreases |events|
  {
    if events != [] {
      NeutralAnimationsKeepFlags(f, events[1..]);
    }
  }

  // ---------------------------------------------------------------------------
  // The component's own state
  // ---------------------------------------------------------------------------

  class SearchFilterComponent {
    const filterName: string
    var closed: bool
    var notab: bool
    var focusBox: bool
    var subs: seq<Subscription>
    /** The calls made on the filter store so far, oldest first. */
    var storeCommands: seq<StoreCommand>

    function Flags(): SlideFlags
      reads this
    {
      SlideFlags(closed, notab)
    }

    /** `closed` and `notab` have no initialiser in the component; they start out falsy. */
    constructor (filterName: string)
      ensures this.filterName == filterName
      ensures Flags() == SlideFlags(false, false) && !focusBox
      ensures subs == [] && storeCommands == []
    {
      this.filterName := filterName;
      closed, notab, focusBox := false, false, false;
      subs, storeCommands := [], [];
    }

    /**
     * ngOnInit: initialise the filter in the store, then subscribe to the first
     * applied-filter snapshot and request expansion when it is non-empty.
     */
    method OnInit(appliedSnapshots: seq<seq<AppliedFilter>>)
      modifies this`subs, this`storeCommands
      ensures subs == old(subs) + [FirstAppliedFilters(filterName)]
      ensures storeCommands == old(storeCommands) + [InitializeFilter(filterName)] + InitialExpand(filterName, appliedSnapshots)
    {
      storeCommands := storeCommands + [InitializeFilter(filterName)];
      subs := subs + [FirstAppliedFilters(filterName)];
      if |appliedSnapshots| > 0 {
        var selectedValues := appliedSnapshots[0];
        if |selectedValues| > 0 {
          storeCommands := storeCommands + [Expand(filterName)];
        }
      }
    }

    method ToggleFilter()
      modifies this`storeCommands
      ensures storeCommands == old(storeCommands) + [Toggle(filterName)]
    {
      storeCommands := storeCommands + [Toggle(filterName)];
    }

    method FinishSlide(e: SlideEvent)
      modifies this`closed, this`notab
      ensures Flags() == Finished(old(Flags()), e)
    {
      if e.fromState == Collapsed {
        closed := false;
      }
      if e.toState == Collapsed {
        notab := true;
      }
    }

    method StartSlide(e: SlideEvent)
      modifies this`closed, this`notab
      ensures Flags() == Started(old(Flags()), e)
    {
      if e.toState == Collapsed {
        closed := true;
      }
      if e.fromState == Collapsed {
        notab := false;
      }
    }
  }
}
