/**
 * The data model of the planning workflow (src/types/disaster.ts): phase
 * definitions, phase instances with their completion flag and payload, the
 * operational period, and the two fixed phase catalogs.
 */
module Catalog {
  import opened Wrappers
  import opened Payload
  import Seqs

  /** A catalog entry: `Omit<DisasterPhase, 'completed' | 'data'>`. */
  datatype PhaseDefinition = PhaseDefinition(id: string, name: string, shortName: string, description: string)

  /** A phase of one operational period; `data` is optional (`data?`). */
  datatype DisasterPhase = DisasterPhase(
    id: string, name: string, shortName: string, description: string,
    completed: bool, data: Option<Data>)

  /** An operational period; `endTime` is absent while the period is live. */
  datatype OperationalPeriod = OperationalPeriod(
    id: string, number: int, startTime: Time, endTime: Option<Time>, phases: seq<DisasterPhase>)

  /** `PLANNING_P_PHASES`, the seed catalog shown for operational period 0. */
  const PlanningPPhases: seq<PhaseDefinition> := [
    PhaseDefinition("initial-response", "Initial Response & Assessment", "Initial Response",
      "Immediate response and situation assessment"),
    PhaseDefinition("incident-briefing", "Incident Briefing (ICS-201)", "Incident Briefing",
      "Brief key personnel on current situation")
  ]

  /** `OPERATIONAL_PERIOD_PHASES`, from which every operational period is instantiated. */
  const OperationalPeriodPhases: seq<PhaseDefinition> := [
    PhaseDefinition("ic-uc-objectives-meeting", "IC/UC Objectives Meeting", "IC/UC Objectives",
      "Incident Commander and Unified Command objectives meeting"),
    PhaseDefinition("strategy-meeting", "Strategy Meeting", "Strategy Meeting",
      "Develop strategic approach for incident response"),
    PhaseDefinition("prepare-tactics-meeting", "Prepare for Tactics Meeting", "Prepare Tactics",
      "Preparation activities for the tactics meeting"),
    PhaseDefinition("tactics-meeting", "Tactics Meeting", "Tactics Meeting",
      "Tactical planning and resource assignment meeting"),
    PhaseDefinition("prepare-planning-meeting", "Prepare for Planning Meeting", "Prepare Planning",
      "Preparation activities for the planning meeting"),
    PhaseDefinition("planning-meeting", "Planning Meeting", "Planning Meeting",
      "Comprehensive incident planning meeting"),
    PhaseDefinition("iap-prep-approval", "IAP Prep & Approval", "IAP Prep & Approval",
      "Incident Action Plan preparation and approval process"),
    PhaseDefinition("operations-briefing", "Operations Briefing", "Operations Briefing",
      "Brief operational personnel on the action plan")
  ]

  /** The id every reset of the current phase id targets. */
  const FirstPhaseId: string := "ic-uc-objectives-meeting"

  /** The ids of catalog entries, in order. */
  function DefinitionIds(defs: seq<PhaseDefinition>): (r: seq<string>)
    ensures |r| == |defs| && forall i :: 0 <= i < |defs| ==> r[i] == defs[i].id
  {
    seq(|defs|, i requires 0 <= i < |defs| => defs[i].id)
  }

  /** The catalog entry a phase was made from: the phase without `completed` and `data`. */
  function Definition(phase: DisasterPhase): PhaseDefinition
  {
    PhaseDefinition(phase.id, phase.name, phase.shortName, phase.description)
  }

  /** The ids of a period's phases, in order: the ids of the entries they were made from. */
  function PhaseIds(phases: seq<DisasterPhase>): (r: seq<string>)
    ensures |r| == |phases| && forall i :: 0 <= i < |phases| ==> r[i] == phases[i].id
  {
    DefinitionIds(seq(|phases|, i requires 0 <= i < |phases| => Definition(phases[i])))
  }

  /** The ids of the operational-period catalog, in catalog order. */
  function CatalogIds(): seq<string>
  {
    DefinitionIds(OperationalPeriodPhases)
  }

  /** The operational-period catalog has eight pairwise distinct ids and starts with `FirstPhaseId`. */
  lemma OperationalCatalogShape()
    ensures |OperationalPeriodPhases| == 8
    ensures OperationalPeriodPhases[0].id == FirstPhaseId
    ensures CatalogIds() == ["ic-uc-objectives-meeting", "strategy-meeting", "prepare-tactics-meeting",
                             "tactics-meeting", "prepare-planning-meeting", "planning-meeting",
                             "iap-prep-approval", "operations-briefing"]
    ensures Seqs.Distinct(CatalogIds())
  {
    var ids := CatalogIds();
    assert ids == ["ic-uc-objectives-meeting", "strategy-meeting", "prepare-tactics-meeting",
                   "tactics-meeting", "prepare-planning-meeting", "planning-meeting",
                   "iap-prep-approval", "operations-briefing"];
    forall i, j | 0 <= i < j < |ids| ensures ids[i] != ids[j] {
      DistinctCatalogPair(i, j);
    }
  }

  /** Two catalog ids at different positions differ (they differ in length or in one character). */
  lemma DistinctCatalogPair(i: nat, j: nat)
    requires i < j < 8
    ensures OperationalPeriodPhases[i].id != OperationalPeriodPhases[j].id
  {
    var a := OperationalPeriodPhases[i].id;
    var b := OperationalPeriodPhases[j].id;
    if |a| == |b| {
      // equal lengths: positions 0 and 4 (24 characters), 1 and 5 (16 characters)
      assert (i == 0 && j == 4) || (i == 1 && j == 5);
      assert a[0] != b[0];
    }
  }

  /** The Planning-P seed catalog holds exactly the two entries of operational period 0. */
  lemma PlanningCatalogShape()
    ensures DefinitionIds(PlanningPPhases) == ["initial-response", "incident-briefing"]
  {
  }

  /** A catalog entry turned into a fresh phase: not completed, empty payload. */
  function Instantiate(def: PhaseDefinition): (p: DisasterPhase)
    ensures p.id == def.id && p.name == def.name && p.shortName == def.shortName
    ensures p.description == def.description
    ensures !p.completed && p.data == Some(map[])
  {
    DisasterPhase(def.id, def.name, def.shortName, def.description, false, Some(map[]))
  }

  /** `phase` is an instance of `def`: same id, name, short name and description. */
  predicate InstanceOf(phase: DisasterPhase, def: PhaseDefinition)
  {
    Definition(phase) == def
  }

  /** The period's phases are one instance per catalog entry, in catalog order. */
  predicate FollowsCatalog(phases: seq<DisasterPhase>)
  {
    |phases| == |OperationalPeriodPhases|
    && forall i :: 0 <= i < |phases| ==> InstanceOf(phases[i], OperationalPeriodPhases[i])
  }

  /**
   * `OPERATIONAL_PERIOD_PHASES.map(phase => ({ ...phase, completed: false, data: {} }))`:
   * one fresh phase per catalog entry, in catalog order.
   */
  function FreshPhases(): (r: seq<DisasterPhase>)
    ensures FollowsCatalog(r)
    ensures PhaseIds(r) == CatalogIds()
    ensures forall i :: 0 <= i < |r| ==> !r[i].completed && r[i].data == Some(map[])
  {
    seq(|OperationalPeriodPhases|, i requires 0 <= i < |OperationalPeriodPhases| =>
      Instantiate(OperationalPeriodPhases[i]))
  }

  /** Phases that follow the catalog carry exactly the catalog's ids. */
  lemma FollowsCatalogIds(phases: seq<DisasterPhase>)
    requires FollowsCatalog(phases)
    ensures PhaseIds(phases) == CatalogIds()
  {
  }
}
