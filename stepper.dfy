/**
 * The phase stepper (src/components/PlanningPStepper.tsx): which phase
 * buttons are enabled, which one is highlighted as active, the descriptive
 * caption under a button, and the click guard in front of `onPhaseSelect`.
 */
module Stepper {
  import opened Wrappers
  import opened Catalog
  import Seqs

  /**
   * `canAccess` for the button at `index`. Period 0 opens its first two phases
   * and then each phase once the one before it is completed; periods 1 and
   * above open every phase; any other (negative) period number opens the first
   * phase and then each phase once the one before it is completed.
   * `phases[index - 1]?.completed` is false when there is no such phase.
   */
  predicate CanAccess(periodNumber: int, index: nat, phases: seq<DisasterPhase>)
  {
    if periodNumber == 0 then index <= 1 || PreviousCompleted(index, phases)
    else if periodNumber >= 1 then true
    else index == 0 || PreviousCompleted(index, phases)
  }

  /** `phases[index - 1]?.completed`, read as a boolean. */
  predicate PreviousCompleted(index: nat, phases: seq<DisasterPhase>)
  {
    1 <= index <= |phases| && phases[index - 1].completed
  }

  /** From operational period 1 on, the stepper restricts nothing. */
  lemma OpenFromPeriodOne(periodNumber: int, phases: seq<DisasterPhase>)
    requires periodNumber >= 1
    ensures forall i: nat :: i < |phases| ==> CanAccess(periodNumber, i, phases)
  {
  }

  /**
   * The rule for period 0: the first two buttons are always enabled, and a
   * later button exactly when its predecessor is completed.
   */
  lemma PeriodZeroRule(index: nat, phases: seq<DisasterPhase>)
    requires index < |phases|
    ensures index <= 1 ==> CanAccess(0, index, phases)
    ensures index >= 2 ==> (CanAccess(0, index, phases) <==> phases[index - 1].completed)
  {
  }

  /**
   * The rule for negative period numbers: sequential access, with only the
   * first button enabled unconditionally.
   */
  lemma NegativePeriodRule(periodNumber: int, index: nat, phases: seq<DisasterPhase>)
    requires periodNumber < 0 && index < |phases|
    ensures index == 0 ==> CanAccess(periodNumber, index, phases)
    ensures index > 0 ==> (CanAccess(periodNumber, index, phases) <==> phases[index - 1].completed)
  {
  }

  /**
   * The button's `onClick`: `canAccess && onPhaseSelect(phase.id)`. The result
   * is the id handed to `onPhaseSelect`, or `None` when nothing is called.
   */
  function ClickTarget(periodNumber: int, phases: seq<DisasterPhase>, index: nat): (r: Option<string>)
    requires index < |phases|
    ensures r.Some? <==> CanAccess(periodNumber, index, phases)
    ensures r.Some? ==> r.value == phases[index].id
  {
    if CanAccess(periodNumber, index, phases) then Some(phases[index].id) else None
  }

  /** `isActive`: the button of the phase `currentPhaseId` names. */
  predicate IsActive(phase: DisasterPhase, currentPhaseId: string)
  {
    phase.id == currentPhaseId
  }

  /** With pairwise distinct phase ids, at most one button is active. */
  lemma AtMostOneActive(phases: seq<DisasterPhase>, currentPhaseId: string, i: nat, j: nat)
    requires Seqs.Distinct(PhaseIds(phases))
    requires i < |phases| && j < |phases|
    requires IsActive(phases[i], currentPhaseId) && IsActive(phases[j], currentPhaseId)
    ensures i == j
  {
    var ids := PhaseIds(phases);
    assert ids[i] == currentPhaseId == ids[j];
  }

  /** In an operational period every button is inactive except the one of the current phase. */
  lemma ActiveIsCatalogPosition(phases: seq<DisasterPhase>, k: nat)
    requires FollowsCatalog(phases) && k < |phases|
    ensures forall i :: 0 <= i < |phases| ==> (IsActive(phases[i], phases[k].id) <==> i == k)
  {
    OperationalCatalogShape();
    FollowsCatalogIds(phases);
    forall i | 0 <= i < |phases| && IsActive(phases[i], phases[k].id) ensures i == k {
      AtMostOneActive(phases, phases[k].id, i, k);
    }
  }

  /** `getDescriptiveText()`: the caption under a button. */
  function DescriptiveText(periodNumber: int, phaseId: string): (r: Option<string>)
    ensures r.Some? <==> periodNumber == 0 && (phaseId == "initial-response" || phaseId == "incident-briefing")
    ensures r.Some? ==> r.value == (if phaseId == "initial-response" then "Create ICS-201" else "Use ICS-201")
  {
    if periodNumber != 0 then None
    else if phaseId == "initial-response" then Some("Create ICS-201")
    else if phaseId == "incident-briefing" then Some("Use ICS-201")
    else None
  }

  /** No phase of the operational-period catalog ever gets a caption. */
  lemma NoCaptionInOperationalCatalog(periodNumber: int, i: nat)
    requires i < |OperationalPeriodPhases|
    ensures DescriptiveText(periodNumber, OperationalPeriodPhases[i].id).None?
  {
    var id := OperationalPeriodPhases[i].id;
    assert id != "initial-response" && id != "incident-briefing" by {
      assert id[0] != 'i' || id[1] != 'n';
    }
  }
}
