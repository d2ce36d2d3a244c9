/**
 * The operational-period / phase-progression engine of src/App.tsx: the live
 * operational period, the append-only history of archived periods, the
 * current phase id, the optional "viewing a past period" selection and
 * the completion-summary flag, with the handlers that change them.
 *
 * Each handler is one atomic update of the fields. `new Date()` is passed in
 * as a `Time` parameter.
 */
module Engine {
  import opened Wrappers
  import opened Payload
  import opened Catalog
  import opened JsText
  import Seqs
  import Stepper

  /** The value the past-period selector uses for "the live period". */
  const CurrentSelection: string := "current"

  // ---------------------------------------------------------------------------
  // The per-phase transforms inside the handlers

  /** `phases.findIndex(p => p.id === id)`. */
  function PhaseIndex(phases: seq<DisasterPhase>, id: string): (r: int)
    ensures -1 <= r < |phases|
    ensures r == -1 <==> forall i :: 0 <= i < |phases| ==> phases[i].id != id
    ensures r >= 0 ==> phases[r].id == id && forall j :: 0 <= j < r ==> phases[j].id != id
  {
    Seqs.IndexWhere(phases, (p: DisasterPhase) => p.id == id)
  }

  /** `phases.find(p => p.id === id)`. */
  function FindPhase(phases: seq<DisasterPhase>, id: string): (r: Option<DisasterPhase>)
    ensures r.None? <==> PhaseIndex(phases, id) == -1
    ensures r.Some? ==> r.value == phases[PhaseIndex(phases, id)]
  {
    Seqs.FindWhere(phases, (p: DisasterPhase) => p.id == id)
  }

  /** In an operational period the phase with a catalog id sits at that id's catalog position. */
  lemma PhaseIndexInCatalog(phases: seq<DisasterPhase>, k: nat)
    requires FollowsCatalog(phases) && k < |phases|
    ensures PhaseIndex(phases, OperationalPeriodPhases[k].id) == k
  {
    OperationalCatalogShape();
    var i := PhaseIndex(phases, OperationalPeriodPhases[k].id);
    if i != k {
      assert phases[i].id == OperationalPeriodPhases[i].id;
      if i < k {
        DistinctCatalogPair(i, k);
      }
    }
  }

  /** Two periods that both follow the catalog agree on the index of every phase id. */
  lemma PhaseIndexAgrees(a: seq<DisasterPhase>, b: seq<DisasterPhase>, id: string)
    requires FollowsCatalog(a) && FollowsCatalog(b)
    ensures PhaseIndex(a, id) == PhaseIndex(b, id)
  {
    var i := PhaseIndex(a, id);
    var j := PhaseIndex(b, id);
    if i >= 0 {
      PhaseIndexInCatalog(b, i);
    } else if j >= 0 {
      PhaseIndexInCatalog(a, j);
    }
  }

  /**
   * The phase map of `handlePhaseDataChange`: the phases whose id is `id` get
   * `data` as their payload; everything else is kept.
   */
  function SetPhaseData(phases: seq<DisasterPhase>, id: string, data: Data): (r: seq<DisasterPhase>)
    ensures |r| == |phases|
    ensures forall i :: 0 <= i < |phases| ==>
      r[i] == if phases[i].id == id then phases[i].(data := Some(data)) else phases[i]
    ensures FollowsCatalog(phases) ==> FollowsCatalog(r)
  {
    Seqs.MapWhere(phases, (p: DisasterPhase) => p.id == id, (p: DisasterPhase) => p.(data := Some(data)))
  }

  /**
   * The phase map of `handlePhaseComplete`: the phases whose id is `id` are
   * marked completed; everything else is kept.
   */
  function MarkCompleted(phases: seq<DisasterPhase>, id: string): (r: seq<DisasterPhase>)
    ensures |r| == |phases|
    ensures forall i :: 0 <= i < |phases| ==>
      r[i] == if phases[i].id == id then phases[i].(completed := true) else phases[i]
    ensures FollowsCatalog(phases) ==> FollowsCatalog(r)
  {
    Seqs.MapWhere(phases, (p: DisasterPhase) => p.id == id, (p: DisasterPhase) => p.(completed := true))
  }

  /**
   * Setting the data of the phase at position `k` of an operational period
   * changes that phase's payload to `data` and nothing else: count, order,
   * ids, completion flags and every other payload stay.
   */
  lemma SetPhaseDataOnlyAt(phases: seq<DisasterPhase>, k: nat, data: Data)
    requires FollowsCatalog(phases) && k < |phases|
    ensures var r := SetPhaseData(phases, phases[k].id, data);
      && FollowsCatalog(r) && PhaseIds(r) == PhaseIds(phases)
      && r[k] == phases[k].(data := Some(data))
      && forall i :: 0 <= i < |phases| && i != k ==> r[i] == phases[i]
  {
    var r := SetPhaseData(phases, phases[k].id, data);
    forall i | 0 <= i < |phases| && i != k ensures r[i] == phases[i] {
      assert phases[i].id != phases[k].id by {
        if i < k { DistinctCatalogPair(i, k); } else { DistinctCatalogPair(k, i); }
      }
    }
  }

  /** The stored payload is read back unchanged by the phase lookup (the editor's `data` prop). */
  lemma SetPhaseDataRoundTrip(phases: seq<DisasterPhase>, id: string, data: Data)
    requires FollowsCatalog(phases) && PhaseIndex(phases, id) >= 0
    ensures FindPhase(SetPhaseData(phases, id, data), id) == Some(phases[PhaseIndex(phases, id)].(data := Some(data)))
  {
    var k := PhaseIndex(phases, id);
    SetPhaseDataOnlyAt(phases, k, data);
    PhaseIndexAgrees(phases, SetPhaseData(phases, id, data), id);
  }

  /**
   * Completing the phase at position `k` of an operational period sets its flag
   * and changes no other phase.
   */
  lemma MarkCompletedOnlyAt(phases: seq<DisasterPhase>, k: nat)
    requires FollowsCatalog(phases) && k < |phases|
    ensures var r := MarkCompleted(phases, phases[k].id);
      && FollowsCatalog(r) && r[k].completed && r[k].data == phases[k].data
      && forall i :: 0 <= i < |phases| && i != k ==> r[i] == phases[i]
  {
    var r := MarkCompleted(phases, phases[k].id);
    forall i | 0 <= i < |phases| && i != k ensures r[i] == phases[i] {
      assert phases[i].id != phases[k].id by {
        if i < k { DistinctCatalogPair(i, k); } else { DistinctCatalogPair(k, i); }
      }
    }
  }

  /** `(parseInt(prev.id) + 1).toString()`; `parseInt` giving NaN yields "NaN". */
  function NextPeriodId(id: string): (r: string)
    ensures ParseInt(id).Some? ==> ParseInt(r) == Some(ParseInt(id).value + 1)
    ensures ParseInt(id).None? ==> r == "NaN"
  {
    match ParseInt(id)
    case Some(n) =>
      ParseIntOfIntToString(n + 1);
      IntToString(n + 1)
    case None => "NaN"
  }

  /** A period whose id is the decimal of its number keeps that shape under `NextPeriodId`. */
  lemma NextPeriodIdOfNumber(number: int)
    ensures NextPeriodId(IntToString(number)) == IntToString(number + 1)
  {
    ParseIntOfIntToString(number);
  }

  /** `pastOperationalPeriods.find(p => p.id === periodId)`. */
  function FindPeriod(periods: seq<OperationalPeriod>, id: string): (r: Option<OperationalPeriod>)
    ensures r.None? <==> forall i :: 0 <= i < |periods| ==> periods[i].id != id
    ensures r.Some? ==> r.value in periods && r.value.id == id
  {
    Seqs.FindWhere(periods, (p: OperationalPeriod) => p.id == id)
  }

  /** The `i`-th archived period: catalog phases, number `2 + i`, id its decimal, an end time. */
  predicate Archived(p: OperationalPeriod, i: nat)
  {
    FollowsCatalog(p.phases) && p.number == 2 + i && p.id == IntToString(p.number) && p.endTime.Some?
  }

  /** The history of archived periods: entry `i` holds period `2 + i`. */
  predicate History(past: seq<OperationalPeriod>)
  {
    forall i :: 0 <= i < |past| ==> Archived(past[i], i)
  }

  /** In the history every period id names exactly one period, so the selector's lookup is exact. */
  lemma FindPeriodInHistory(past: seq<OperationalPeriod>, k: nat)
    requires History(past) && k < |past|
    ensures FindPeriod(past, past[k].id) == Some(past[k])
  {
    var r := FindPeriod(past, past[k].id);
    var i := Seqs.IndexWhere(past, (p: OperationalPeriod) => p.id == past[k].id);
    assert Archived(past[i], i) && Archived(past[k], k);
    IntToStringInjective(past[i].number, past[k].number);
  }

  /** No archived period answers to the live period's selector value. */
  lemma HistoryNeverCurrent(past: seq<OperationalPeriod>)
    requires History(past)
    ensures FindPeriod(past, CurrentSelection).None?
  {
    forall i | 0 <= i < |past| ensures past[i].id != CurrentSelection {
      assert Archived(past[i], i);
      var s := past[i].id;
      assert s[0] == '-' || IsDecimalDigit(s[0]) by {
        assert IsDecimalDigit(NatToString(past[i].number)[0]);
      }
    }
  }

  // ---------------------------------------------------------------------------
  // The engine

  class PlanningApp {
    var currentOperationalPeriod: OperationalPeriod
    var pastOperationalPeriods: seq<OperationalPeriod>
    /** The code keeps the selected period object itself, not its id. */
    var viewingPastPeriod: Option<OperationalPeriod>
    var currentPhaseId: string
    var showCompletionSummary: bool

    /**
     * The state every handler preserves: the live period follows the catalog,
     * has no end time and is numbered two more than the history is long (its
     * id the decimal of its number); the history is well formed; a viewed
     * period is one of the archived ones; the summary is only shown once the
     * last phase of the live period is completed.
     */
    ghost predicate Valid()
      reads this
    {
      var cur := currentOperationalPeriod;
      && FollowsCatalog(cur.phases) && cur.endTime.None?
      && cur.number == 2 + |pastOperationalPeriods| && cur.id == IntToString(cur.number)
      && History(pastOperationalPeriods)
      && (viewingPastPeriod.Some? ==> viewingPastPeriod.value in pastOperationalPeriods)
      && (showCompletionSummary ==> cur.phases[|cur.phases| - 1].completed)
    }

    /** The initial state of `App`. */
    constructor (startTime: Time)
      ensures Valid()
      ensures currentOperationalPeriod == OperationalPeriod("2", 2, startTime, None, FreshPhases())
      ensures pastOperationalPeriods == [] && viewingPastPeriod == None
      ensures currentPhaseId == FirstPhaseId && !showCompletionSummary
    {
      currentOperationalPeriod := OperationalPeriod("2", 2, startTime, None, FreshPhases());
      pastOperationalPeriods := [];
      viewingPastPeriod := None;
      currentPhaseId := FirstPhaseId;
      showCompletionSummary := false;
    }

    /** `currentPhaseIndex`: the current phase's position in the live period, -1 when it names no phase. */
    function CurrentPhaseIndex(): (r: int)
      reads this
      ensures -1 <= r < |currentOperationalPeriod.phases|
      ensures r >= 0 ==> currentOperationalPeriod.phases[r].id == currentPhaseId
    {
      PhaseIndex(currentOperationalPeriod.phases, currentPhaseId)
    }

    /** `displayedPeriod`: the viewed past period if there is one, else the live period. */
    function DisplayedPeriod(): (r: OperationalPeriod)
      reads this
      ensures viewingPastPeriod.Some? ==> r == viewingPastPeriod.value
      ensures viewingPastPeriod.None? ==> r == currentOperationalPeriod
    {
      viewingPastPeriod.GetOr(currentOperationalPeriod)
    }

    /** `displayedPhase`: the current phase in the displayed period; when absent, no editor is shown. */
    function DisplayedPhase(): Option<DisasterPhase>
      reads this
    {
      FindPhase(DisplayedPeriod().phases, currentPhaseId)
    }

    /** `displayedPhaseIndex`. */
    function DisplayedPhaseIndex(): int
      reads this
    {
      PhaseIndex(DisplayedPeriod().phases, currentPhaseId)
    }

    /** `isReadOnly`: a past period is on screen. */
    predicate IsReadOnly()
      reads this
    {
      viewingPastPeriod.Some?
    }

    /** The editor gets an `onPrevious` callback only when the displayed index is positive. */
    predicate PreviousOffered()
      reads this
    {
      DisplayedPhaseIndex() > 0
    }

    /**
     * The gate of `onPrevious` (the displayed index) and the index
     * `handlePreviousPhase` steps back from (the live index) agree, since both
     * periods follow the catalog.
     */
    lemma DisplayedIndexAgrees()
      requires Valid()
      ensures DisplayedPhaseIndex() == CurrentPhaseIndex()
      ensures DisplayedPhase().Some? <==> CurrentPhaseIndex() >= 0
    {
      var d := DisplayedPeriod();
      if viewingPastPeriod.Some? {
        var k :| 0 <= k < |pastOperationalPeriods| && pastOperationalPeriods[k] == d;
        assert Archived(pastOperationalPeriods[k], k);
      }
      PhaseIndexAgrees(d.phases, currentOperationalPeriod.phases, currentPhaseId);
    }

    /** Every stepper button is enabled: the displayed period is numbered 2 or more. */
    lemma StepperFullyOpen()
      requires Valid()
      ensures forall i: nat :: i < |DisplayedPeriod().phases| ==>
        Stepper.CanAccess(DisplayedPeriod().number, i, DisplayedPeriod().phases)
    {
      if viewingPastPeriod.Some? {
        var k :| 0 <= k < |pastOperationalPeriods| && pastOperationalPeriods[k] == viewingPastPeriod.value;
        assert Archived(pastOperationalPeriods[k], k);
      }
      Stepper.OpenFromPeriodOne(DisplayedPeriod().number, DisplayedPeriod().phases);
    }

    /** `setCurrentPhaseId`, the stepper's `onPhaseSelect`: the current phase id is set as given. */
    method SelectPhase(phaseId: string)
      requires Valid()
      modifies this`currentPhaseId
      ensures Valid()
      ensures currentPhaseId == phaseId
    {
      currentPhaseId := phaseId;
    }

    /** `handlePhaseDataChange`: the current phase gets `data` as its payload. */
    method HandlePhaseDataChange(data: Data)
      requires Valid()
      modifies this`currentOperationalPeriod
      ensures Valid()
      ensures currentOperationalPeriod == old(currentOperationalPeriod).(
        phases := SetPhaseData(old(currentOperationalPeriod.phases), currentPhaseId, data))
    {
      currentOperationalPeriod := currentOperationalPeriod.(
        phases := SetPhaseData(currentOperationalPeriod.phases, currentPhaseId, data));
    }

    /**
     * `handlePhaseComplete`: the current phase is marked completed; then the
     * phase after the current index becomes current, or, past the last phase,
     * the completion summary is shown and the current phase id stays. A
     * current phase id naming no phase (index -1) moves to the first phase.
     */
    method HandlePhaseComplete()
      requires Valid()
      modifies this`currentOperationalPeriod, this`currentPhaseId, this`showCompletionSummary
      ensures Valid()
      ensures currentOperationalPeriod == old(currentOperationalPeriod).(
        phases := MarkCompleted(old(currentOperationalPeriod.phases), old(currentPhaseId)))
      ensures var next := old(CurrentPhaseIndex()) + 1;
        if next < |currentOperationalPeriod.phases| then
          currentPhaseId == old(currentOperationalPeriod.phases)[next].id
          && showCompletionSummary == old(showCompletionSummary)
        else
          currentPhaseId == old(currentPhaseId) && showCompletionSummary
    {
      var index := CurrentPhaseIndex();
      var phases := currentOperationalPeriod.phases;
      var marked := MarkCompleted(phases, currentPhaseId);
      currentOperationalPeriod := currentOperationalPeriod.(phases := marked);
      var next := index + 1;
      if next < |phases| {
        currentPhaseId := phases[next].id;
      } else {
        assert phases[index].id == currentPhaseId;
        assert marked[index].completed;
        showCompletionSummary := true;
      }
    }

    /** `handlePreviousPhase`: the current phase id steps back one phase; at the first phase nothing happens. */
    method HandlePreviousPhase()
      requires Valid()
      modifies this`currentPhaseId
      ensures Valid()
      ensures var prev := old(CurrentPhaseIndex()) - 1;
        currentPhaseId == if prev >= 0 then currentOperationalPeriod.phases[prev].id else old(currentPhaseId)
    {
      var prev := CurrentPhaseIndex() - 1;
      if prev >= 0 {
        currentPhaseId := currentOperationalPeriod.phases[prev].id;
      }
    }

    /**
     * `advanceOperationalPeriod`: the live period is archived with an end
     * time, and a fresh period numbered one higher becomes live; the current phase id
     * returns to the first phase, the summary is hidden and the live period is
     * shown again.
     */
    method AdvanceOperationalPeriod(archivedAt: Time, startedAt: Time)
      requires Valid()
      modifies this
      ensures Valid()
      ensures pastOperationalPeriods == old(pastOperationalPeriods) + [old(currentOperationalPeriod).(endTime := Some(archivedAt))]
      ensures currentOperationalPeriod == OperationalPeriod(
        NextPeriodId(old(currentOperationalPeriod.id)), old(currentOperationalPeriod.number) + 1,
        startedAt, None, FreshPhases())
      ensures currentOperationalPeriod.id == IntToString(currentOperationalPeriod.number)
      ensures currentPhaseId == FirstPhaseId && !showCompletionSummary && viewingPastPeriod == None
    {
      var prev := currentOperationalPeriod;
      pastOperationalPeriods := pastOperationalPeriods + [prev.(endTime := Some(archivedAt))];
      NextPeriodIdOfNumber(prev.number);
      currentOperationalPeriod := OperationalPeriod(NextPeriodId(prev.id), prev.number + 1, startedAt, None, FreshPhases());
      currentPhaseId := FirstPhaseId;
      showCompletionSummary := false;
      viewingPastPeriod := None;
    }

    /**
     * `handleViewPastPeriod`: "current" returns to the live period; the id of
     * an archived period shows that period and resets the current phase id to the
     * first phase; any other id changes nothing.
     */
    method HandleViewPastPeriod(periodId: string)
      requires Valid()
      modifies this`viewingPastPeriod, this`currentPhaseId
      ensures Valid()
      ensures periodId == CurrentSelection ==>
        viewingPastPeriod == None && currentPhaseId == old(currentPhaseId)
      ensures periodId != CurrentSelection ==>
        match FindPeriod(pastOperationalPeriods, periodId)
        case Some(p) => viewingPastPeriod == Some(p) && currentPhaseId == FirstPhaseId
        case None => viewingPastPeriod == old(viewingPastPeriod) && currentPhaseId == old(currentPhaseId)
    {
      if periodId == CurrentSelection {
        viewingPastPeriod := None;
      } else {
        var pastPeriod := FindPeriod(pastOperationalPeriods, periodId);
        if pastPeriod.Some? {
          viewingPastPeriod := pastPeriod;
          currentPhaseId := FirstPhaseId;
        }
      }
    }

    /** The editor's `onDataChange`: a no-op while a past period is shown. */
    method OnDataChange(data: Data)
      requires Valid()
      modifies this`currentOperationalPeriod
      ensures Valid()
      ensures old(IsReadOnly()) ==> currentOperationalPeriod == old(currentOperationalPeriod)
      ensures !old(IsReadOnly()) ==> currentOperationalPeriod == old(currentOperationalPeriod).(
        phases := SetPhaseData(old(currentOperationalPeriod.phases), currentPhaseId, data))
    {
      if !IsReadOnly() {
        HandlePhaseDataChange(data);
      }
    }

    /** The editor's `onComplete`: a no-op while a past period is shown. */
    method OnComplete()
      requires Valid()
      modifies this`currentOperationalPeriod, this`currentPhaseId, this`showCompletionSummary
      ensures Valid()
      ensures old(IsReadOnly()) ==> unchanged(this)
      ensures !old(IsReadOnly()) ==> currentOperationalPeriod == old(currentOperationalPeriod).(
        phases := MarkCompleted(old(currentOperationalPeriod.phases), old(currentPhaseId)))
      ensures !old(IsReadOnly()) ==> var next := old(CurrentPhaseIndex()) + 1;
        if next < |currentOperationalPeriod.phases| then
          currentPhaseId == old(currentOperationalPeriod.phases)[next].id
          && showCompletionSummary == old(showCompletionSummary)
        else
          currentPhaseId == old(currentPhaseId) && showCompletionSummary
    {
      if !IsReadOnly() {
        HandlePhaseComplete();
      }
    }

    /**
     * The editor's `onPrevious`, offered only when the displayed index is
     * positive: the current phase id steps back exactly one catalog position.
     */
    method OnPrevious()
      requires Valid()
      modifies this`currentPhaseId
      ensures Valid()
      ensures !old(PreviousOffered()) ==> currentPhaseId == old(currentPhaseId)
      ensures old(PreviousOffered()) ==> CurrentPhaseIndex() == old(CurrentPhaseIndex()) - 1
    {
      DisplayedIndexAgrees();
      if PreviousOffered() {
        var k := CurrentPhaseIndex() - 1;
        HandlePreviousPhase();
        PhaseIndexInCatalog(currentOperationalPeriod.phases, k);
      }
    }

    /** A click on the stepper button at `index` of the displayed period, through the access guard. */
    method StepperClick(index: nat)
      requires Valid()
      requires index < |DisplayedPeriod().phases|
      modifies this`currentPhaseId
      ensures Valid()
      ensures match Stepper.ClickTarget(DisplayedPeriod().number, DisplayedPeriod().phases, index)
        case Some(id) => currentPhaseId == id
        case None => currentPhaseId == old(currentPhaseId)
    {
      var target := Stepper.ClickTarget(DisplayedPeriod().number, DisplayedPeriod().phases, index);
      if target.Some? {
        SelectPhase(target.value);
      }
    }
  }
}
