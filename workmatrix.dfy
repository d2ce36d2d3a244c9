/**
 * The planning lists of the meeting-phase editor
 * (src/components/phases/InitialUCMeetingPhase.tsx): the work analysis
 * matrix (objectives, their strategies, their tactics), the work assignments
 * with their resources, the hazards of the safety analysis, and the colour
 * rules for priorities and GAR scores. Every transform here is a pure list
 * rewrite; generated ids are parameters.
 */
module WorkMatrix {
  import opened Wrappers
  import opened Payload
  import Seqs

  // ---------------------------------------------------------------------------
  // Objectives, strategies, tactics

  datatype WorkTactic = WorkTactic(id: string, name: string, description: string, assignedTo: string, priority: string)

  datatype WorkStrategy = WorkStrategy(
    id: string, name: string, description: string, tactics: seq<WorkTactic>, expanded: bool)

  datatype WorkObjective = WorkObjective(
    id: string, name: string, description: string, strategies: seq<WorkStrategy>, expanded: bool)

  /** `newTactic`, the add-tactic form. */
  datatype TacticDraft = TacticDraft(name: string, description: string, assignedTo: string, priority: string)

  /** `handleAddObjective`: rejected without a name; otherwise one expanded objective without strategies is appended. */
  function AddObjective(objectives: seq<WorkObjective>, name: string, description: string, id: string)
    : (r: Option<seq<WorkObjective>>)
    ensures r.None? <==> name == ""
    ensures r.Some? ==> r.value == objectives + [WorkObjective(id, name, description, [], true)]
  {
    if name == "" then None else Some(objectives + [WorkObjective(id, name, description, [], true)])
  }

  /** `handleDeleteObjective`: exactly the objectives with that id are removed, the rest keep their order. */
  function DeleteObjective(objectives: seq<WorkObjective>, objectiveId: string): (r: seq<WorkObjective>)
    ensures forall o :: o in r <==> o in objectives && o.id != objectiveId
    ensures forall o :: o in objectives && o.id != objectiveId ==> multiset(r)[o] == multiset(objectives)[o]
    ensures Seqs.IsSubsequence(r, objectives)
  {
    Seqs.Filter(objectives, (o: WorkObjective) => o.id != objectiveId)
  }

  /** `handleToggleObjective`: `expanded` flips on the objectives with that id only. */
  function ToggleObjective(objectives: seq<WorkObjective>, objectiveId: string): (r: seq<WorkObjective>)
    ensures |r| == |objectives|
    ensures forall i :: 0 <= i < |objectives| ==>
      r[i] == if objectives[i].id == objectiveId then objectives[i].(expanded := !objectives[i].expanded) else objectives[i]
  {
    Seqs.MapWhere(objectives, (o: WorkObjective) => o.id == objectiveId,
      (o: WorkObjective) => o.(expanded := !o.expanded))
  }

  /** Toggling an objective twice restores the list. */
  lemma ToggleObjectiveTwice(objectives: seq<WorkObjective>, objectiveId: string)
    ensures ToggleObjective(ToggleObjective(objectives, objectiveId), objectiveId) == objectives
  {
    var once := ToggleObjective(objectives, objectiveId);
    var twice := ToggleObjective(once, objectiveId);
    forall i | 0 <= i < |objectives| ensures twice[i] == objectives[i] {
      assert once[i].id == objectives[i].id;
    }
  }

  /** The strategy list of `handleAddStrategy` for the selected objective. */
  function AppendStrategy(objectives: seq<WorkObjective>, objectiveId: string, s: WorkStrategy): (r: seq<WorkObjective>)
    ensures |r| == |objectives|
    ensures forall i :: 0 <= i < |objectives| ==>
      r[i] == if objectives[i].id == objectiveId
              then objectives[i].(strategies := objectives[i].strategies + [s]) else objectives[i]
  {
    Seqs.MapWhere(objectives, (o: WorkObjective) => o.id == objectiveId,
      (o: WorkObjective) => o.(strategies := o.strategies + [s]))
  }

  /**
   * `handleAddStrategy`: rejected without a name or a selected objective;
   * otherwise an expanded strategy without tactics is appended to the
   * strategies of the selected objective, and no other objective changes.
   */
  function AddStrategy(objectives: seq<WorkObjective>, selectedObjectiveId: string,
                       name: string, description: string, id: string): (r: Option<seq<WorkObjective>>)
    ensures r.None? <==> name == "" || selectedObjectiveId == ""
    ensures r.Some? ==> r.value == AppendStrategy(objectives, selectedObjectiveId, WorkStrategy(id, name, description, [], true))
  {
    if name == "" || selectedObjectiveId == "" then None
    else Some(AppendStrategy(objectives, selectedObjectiveId, WorkStrategy(id, name, description, [], true)))
  }

  /** `handleDeleteStrategy`: the strategy is removed from the named objective only. */
  function DeleteStrategy(objectives: seq<WorkObjective>, objectiveId: string, strategyId: string): (r: seq<WorkObjective>)
    ensures |r| == |objectives|
    ensures forall i :: 0 <= i < |objectives| && objectives[i].id != objectiveId ==> r[i] == objectives[i]
    ensures forall i :: 0 <= i < |objectives| && objectives[i].id == objectiveId ==>
      && r[i] == objectives[i].(strategies := r[i].strategies)
      && (forall s :: s in r[i].strategies <==> s in objectives[i].strategies && s.id != strategyId)
      && (forall s :: s in objectives[i].strategies && s.id != strategyId ==>
            multiset(r[i].strategies)[s] == multiset(objectives[i].strategies)[s])
      && Seqs.IsSubsequence(r[i].strategies, objectives[i].strategies)
  {
    Seqs.MapWhere(objectives, (o: WorkObjective) => o.id == objectiveId,
      (o: WorkObjective) => o.(strategies := Seqs.Filter(o.strategies, (s: WorkStrategy) => s.id != strategyId)))
  }

  /** `expanded` flips on the strategies with that id. */
  function ToggleStrategyIn(strategies: seq<WorkStrategy>, strategyId: string): (r: seq<WorkStrategy>)
    ensures |r| == |strategies|
    ensures forall j :: 0 <= j < |strategies| ==>
      r[j] == if strategies[j].id == strategyId then strategies[j].(expanded := !strategies[j].expanded) else strategies[j]
  {
    Seqs.MapWhere(strategies, (s: WorkStrategy) => s.id == strategyId,
      (s: WorkStrategy) => s.(expanded := !s.expanded))
  }

  /** `handleToggleStrategy`: the strategy is toggled inside the named objective only. */
  function ToggleStrategy(objectives: seq<WorkObjective>, objectiveId: string, strategyId: string): (r: seq<WorkObjective>)
    ensures |r| == |objectives|
    ensures forall i :: 0 <= i < |objectives| ==>
      r[i] == if objectives[i].id == objectiveId
              then objectives[i].(strategies := ToggleStrategyIn(objectives[i].strategies, strategyId)) else objectives[i]
  {
    Seqs.MapWhere(objectives, (o: WorkObjective) => o.id == objectiveId,
      (o: WorkObjective) => o.(strategies := ToggleStrategyIn(o.strategies, strategyId)))
  }

  /** Toggling a strategy twice restores the list. */
  lemma ToggleStrategyTwice(objectives: seq<WorkObjective>, objectiveId: string, strategyId: string)
    ensures ToggleStrategy(ToggleStrategy(objectives, objectiveId, strategyId), objectiveId, strategyId) == objectives
  {
    var once := ToggleStrategy(objectives, objectiveId, strategyId);
    var twice := ToggleStrategy(once, objectiveId, strategyId);
    forall i | 0 <= i < |objectives| ensures twice[i] == objectives[i] {
      assert once[i].id == objectives[i].id;
      if objectives[i].id == objectiveId {
        var ss := objectives[i].strategies;
        var back := ToggleStrategyIn(ToggleStrategyIn(ss, strategyId), strategyId);
        forall j | 0 <= j < |ss| ensures back[j] == ss[j] {
          assert ToggleStrategyIn(ss, strategyId)[j].id == ss[j].id;
        }
        assert back == ss;
      }
    }
  }

  /** The tactics of the strategies with that id get `t` appended. */
  function AppendTacticIn(strategies: seq<WorkStrategy>, strategyId: string, t: WorkTactic): (r: seq<WorkStrategy>)
    ensures |r| == |strategies|
    ensures forall j :: 0 <= j < |strategies| ==>
      r[j] == if strategies[j].id == strategyId then strategies[j].(tactics := strategies[j].tactics + [t]) else strategies[j]
  {
    Seqs.MapWhere(strategies, (s: WorkStrategy) => s.id == strategyId,
      (s: WorkStrategy) => s.(tactics := s.tactics + [t]))
  }

  /**
   * `handleAddTactic`: rejected without a name, a selected objective and a
   * selected strategy; otherwise the tactic is appended to the selected
   * strategy of the selected objective, and every other objective and
   * strategy is unchanged.
   */
  function AddTactic(objectives: seq<WorkObjective>, selectedObjectiveId: string, selectedStrategyId: string,
                     draft: TacticDraft, id: string): (r: Option<seq<WorkObjective>>)
    ensures r.None? <==> draft.name == "" || selectedObjectiveId == "" || selectedStrategyId == ""
    ensures r.Some? ==> |r.value| == |objectives|
    ensures r.Some? ==> forall i :: 0 <= i < |objectives| ==>
      r.value[i] == if objectives[i].id == selectedObjectiveId
                    then objectives[i].(strategies := AppendTacticIn(objectives[i].strategies, selectedStrategyId,
                           WorkTactic(id, draft.name, draft.description, draft.assignedTo, draft.priority)))
                    else objectives[i]
  {
    if draft.name == "" || selectedObjectiveId == "" || selectedStrategyId == "" then None
    else
      var t := WorkTactic(id, draft.name, draft.description, draft.assignedTo, draft.priority);
      Some(Seqs.MapWhere(objectives, (o: WorkObjective) => o.id == selectedObjectiveId,
        (o: WorkObjective) => o.(strategies := AppendTacticIn(o.strategies, selectedStrategyId, t))))
  }

  /** An accepted tactic lands at the end of the selected strategy's tactics and nowhere else. */
  lemma AddTacticPlacement(objectives: seq<WorkObjective>, oid: string, sid: string, draft: TacticDraft, id: string,
                           i: nat, j: nat)
    requires AddTactic(objectives, oid, sid, draft, id).Some?
    requires i < |objectives| && j < |objectives[i].strategies|
    ensures var r := AddTactic(objectives, oid, sid, draft, id).value;
      && |r[i].strategies| == |objectives[i].strategies|
      && var before := objectives[i].strategies[j].tactics;
      && var after := r[i].strategies[j].tactics;
      if objectives[i].id == oid && objectives[i].strategies[j].id == sid
      then |after| == |before| + 1 && after[..|before|] == before && after[|before|].name == draft.name
      else after == before
  {
  }

  /** The tactics with that id are removed from the strategies with that id. */
  function DeleteTacticIn(strategies: seq<WorkStrategy>, strategyId: string, tacticId: string): (r: seq<WorkStrategy>)
    ensures |r| == |strategies|
    ensures forall j :: 0 <= j < |strategies| && strategies[j].id != strategyId ==> r[j] == strategies[j]
    ensures forall j :: 0 <= j < |strategies| && strategies[j].id == strategyId ==>
      && r[j] == strategies[j].(tactics := r[j].tactics)
      && (forall t :: t in r[j].tactics <==> t in strategies[j].tactics && t.id != tacticId)
      && (forall t :: t in strategies[j].tactics && t.id != tacticId ==>
            multiset(r[j].tactics)[t] == multiset(strategies[j].tactics)[t])
      && Seqs.IsSubsequence(r[j].tactics, strategies[j].tactics)
  {
    Seqs.MapWhere(strategies, (s: WorkStrategy) => s.id == strategyId,
      (s: WorkStrategy) => s.(tactics := Seqs.Filter(s.tactics, (t: WorkTactic) => t.id != tacticId)))
  }

  /** `handleDeleteTactic`: the tactic is removed from the named strategy of the named objective only. */
  function DeleteTactic(objectives: seq<WorkObjective>, objectiveId: string, strategyId: string, tacticId: string)
    : (r: seq<WorkObjective>)
    ensures |r| == |objectives|
    ensures forall i :: 0 <= i < |objectives| ==>
      r[i] == if objectives[i].id == objectiveId
              then objectives[i].(strategies := DeleteTacticIn(objectives[i].strategies, strategyId, tacticId))
              else objectives[i]
  {
    Seqs.MapWhere(objectives, (o: WorkObjective) => o.id == objectiveId,
      (o: WorkObjective) => o.(strategies := DeleteTacticIn(o.strategies, strategyId, tacticId)))
  }

  /** `getPriorityColor`: High, Medium, Low have their colours, anything else is muted. */
  function PriorityColor(priority: string): (r: string)
    ensures priority == "High" <==> r == "text-destructive"
    ensures priority == "Medium" <==> r == "text-yellow-500"
    ensures priority == "Low" <==> r == "text-green-500"
    ensures priority !in {"High", "Medium", "Low"} <==> r == "text-muted-foreground"
  {
    match priority
    case "High" => "text-destructive"
    case "Medium" => "text-yellow-500"
    case "Low" => "text-green-500"
    case _ => "text-muted-foreground"
  }

  // ---------------------------------------------------------------------------
  // Work assignments and their resources

  datatype Resource = Resource(id: string, name: string, quantityRequired: int, quantityHad: int, quantityNeeded: int)

  datatype WorkAssignment = WorkAssignment(
    id: string, name: string, divisionGroupLocation: string, resources: seq<Resource>,
    overheadPositions: string, specialEquipmentSupplies: string, reportingLocation: string,
    requestedArrivalTime: string)

  /** `newWorkAssignment`, the add-assignment form, with the resources collected in it so far. */
  datatype AssignmentDraft = AssignmentDraft(
    name: string, divisionGroupLocation: string, resources: seq<Resource>,
    overheadPositions: string, specialEquipmentSupplies: string, reportingLocation: string,
    requestedArrivalTime: string)

  /** `newResource`, the add-resource form of the assignment dialog. */
  datatype ResourceDraft = ResourceDraft(name: string, quantityRequired: int, quantityHad: int, quantityNeeded: int)

  /** `handleAddWorkAssignment`: rejected without a name; otherwise the drafted assignment is appended. */
  function AddWorkAssignment(assignments: seq<WorkAssignment>, draft: AssignmentDraft, id: string)
    : (r: Option<seq<WorkAssignment>>)
    ensures r.None? <==> draft.name == ""
    ensures r.Some? ==> |r.value| == |assignments| + 1 && r.value[..|assignments|] == assignments
    ensures r.Some? ==> var w := r.value[|assignments|];
      && w.id == id && w.name == draft.name && w.divisionGroupLocation == draft.divisionGroupLocation
      && w.resources == draft.resources && w.overheadPositions == draft.overheadPositions
      && w.specialEquipmentSupplies == draft.specialEquipmentSupplies
      && w.reportingLocation == draft.reportingLocation && w.requestedArrivalTime == draft.requestedArrivalTime
  {
    if draft.name == "" then None
    else Some(assignments + [WorkAssignment(id, draft.name, draft.divisionGroupLocation, draft.resources,
      draft.overheadPositions, draft.specialEquipmentSupplies, draft.reportingLocation, draft.requestedArrivalTime)])
  }

  /** The `field`/`value` pair of `handleUpdateWorkAssignment`, one case per key of `WorkAssignment`. */
  datatype AssignmentEdit =
    | SetAssignmentId(id: string) | SetAssignmentName(name: string)
    | SetDivisionGroupLocation(divisionGroupLocation: string) | SetResources(resources: seq<Resource>)
    | SetOverheadPositions(overheadPositions: string) | SetSpecialEquipmentSupplies(specialEquipmentSupplies: string)
    | SetReportingLocation(reportingLocation: string) | SetRequestedArrivalTime(requestedArrivalTime: string)

  function ApplyAssignmentEdit(w: WorkAssignment, e: AssignmentEdit): WorkAssignment
  {
    match e
    case SetAssignmentId(v) => w.(id := v)
    case SetAssignmentName(v) => w.(name := v)
    case SetDivisionGroupLocation(v) => w.(divisionGroupLocation := v)
    case SetResources(v) => w.(resources := v)
    case SetOverheadPositions(v) => w.(overheadPositions := v)
    case SetSpecialEquipmentSupplies(v) => w.(specialEquipmentSupplies := v)
    case SetReportingLocation(v) => w.(reportingLocation := v)
    case SetRequestedArrivalTime(v) => w.(requestedArrivalTime := v)
  }

  /** `handleUpdateWorkAssignment`: the assignments with that id get the edit; length and order are kept. */
  function UpdateWorkAssignment(assignments: seq<WorkAssignment>, assignmentId: string, e: AssignmentEdit)
    : (r: seq<WorkAssignment>)
    ensures |r| == |assignments|
    ensures forall i :: 0 <= i < |assignments| ==>
      r[i] == if assignments[i].id == assignmentId then ApplyAssignmentEdit(assignments[i], e) else assignments[i]
  {
    Seqs.MapWhere(assignments, (w: WorkAssignment) => w.id == assignmentId,
      (w: WorkAssignment) => ApplyAssignmentEdit(w, e))
  }

  /** `handleDeleteWorkAssignment`: exactly the assignments with that id are removed. */
  function DeleteWorkAssignment(assignments: seq<WorkAssignment>, assignmentId: string): (r: seq<WorkAssignment>)
    ensures forall w :: w in r <==> w in assignments && w.id != assignmentId
    ensures forall w :: w in assignments && w.id != assignmentId ==> multiset(r)[w] == multiset(assignments)[w]
    ensures Seqs.IsSubsequence(r, assignments)
  {
    Seqs.Filter(assignments, (w: WorkAssignment) => w.id != assignmentId)
  }

  /** `handleAddResourceToAssignment`: the resource is appended to the assignments with that id (no check on it). */
  function AddResourceToAssignment(assignments: seq<WorkAssignment>, assignmentId: string, resource: Resource)
    : (r: seq<WorkAssignment>)
    ensures |r| == |assignments|
    ensures forall i :: 0 <= i < |assignments| ==>
      r[i] == if assignments[i].id == assignmentId
              then assignments[i].(resources := assignments[i].resources + [resource]) else assignments[i]
  {
    Seqs.MapWhere(assignments, (w: WorkAssignment) => w.id == assignmentId,
      (w: WorkAssignment) => w.(resources := w.resources + [resource]))
  }

  /** The `field`/`value` pair of `handleUpdateResource`, one case per key of `Resource`. */
  datatype ResourceEdit =
    | SetResourceId(id: string) | SetResourceName(name: string)
    | SetQuantityRequired(quantityRequired: int) | SetQuantityHad(quantityHad: int)
    | SetQuantityNeeded(quantityNeeded: int)

  function ApplyResourceEdit(res: Resource, e: ResourceEdit): Resource
  {
    match e
    case SetResourceId(v) => res.(id := v)
    case SetResourceName(v) => res.(name := v)
    case SetQuantityRequired(v) => res.(quantityRequired := v)
    case SetQuantityHad(v) => res.(quantityHad := v)
    case SetQuantityNeeded(v) => res.(quantityNeeded := v)
  }

  /** The resources with that id get the edit. */
  function UpdateResourceIn(resources: seq<Resource>, resourceId: string, e: ResourceEdit): (r: seq<Resource>)
    ensures |r| == |resources|
    ensures forall j :: 0 <= j < |resources| ==>
      r[j] == if resources[j].id == resourceId then ApplyResourceEdit(resources[j], e) else resources[j]
  {
    Seqs.MapWhere(resources, (x: Resource) => x.id == resourceId, (x: Resource) => ApplyResourceEdit(x, e))
  }

  /** `handleUpdateResource`: the resource is edited inside the named assignment only. */
  function UpdateResource(assignments: seq<WorkAssignment>, assignmentId: string, resourceId: string, e: ResourceEdit)
    : (r: seq<WorkAssignment>)
    ensures |r| == |assignments|
    ensures forall i :: 0 <= i < |assignments| ==>
      r[i] == if assignments[i].id == assignmentId
              then assignments[i].(resources := UpdateResourceIn(assignments[i].resources, resourceId, e))
              else assignments[i]
  {
    Seqs.MapWhere(assignments, (w: WorkAssignment) => w.id == assignmentId,
      (w: WorkAssignment) => w.(resources := UpdateResourceIn(w.resources, resourceId, e)))
  }

  /** `handleDeleteResource`: the resource is removed from the named assignment only. */
  function DeleteResource(assignments: seq<WorkAssignment>, assignmentId: string, resourceId: string)
    : (r: seq<WorkAssignment>)
    ensures |r| == |assignments|
    ensures forall i :: 0 <= i < |assignments| && assignments[i].id != assignmentId ==> r[i] == assignments[i]
    ensures forall i :: 0 <= i < |assignments| && assignments[i].id == assignmentId ==>
      && r[i] == assignments[i].(resources := r[i].resources)
      && (forall x :: x in r[i].resources <==> x in assignments[i].resources && x.id != resourceId)
      && (forall x :: x in assignments[i].resources && x.id != resourceId ==>
            multiset(r[i].resources)[x] == multiset(assignments[i].resources)[x])
      && Seqs.IsSubsequence(r[i].resources, assignments[i].resources)
  {
    Seqs.MapWhere(assignments, (w: WorkAssignment) => w.id == assignmentId,
      (w: WorkAssignment) => w.(resources := Seqs.Filter(w.resources, (x: Resource) => x.id != resourceId)))
  }

  /** `handleAddResourceToModal`: rejected without a name; otherwise the resource joins the draft's resources. */
  function AddResourceToDraft(draft: AssignmentDraft, r0: ResourceDraft, id: string): (r: Option<AssignmentDraft>)
    ensures r.None? <==> r0.name == ""
    ensures r.Some? ==> r.value == draft.(resources := draft.resources +
      [Resource(id, r0.name, r0.quantityRequired, r0.quantityHad, r0.quantityNeeded)])
  {
    if r0.name == "" then None
    else Some(draft.(resources := draft.resources + [Resource(id, r0.name, r0.quantityRequired, r0.quantityHad, r0.quantityNeeded)]))
  }

  /** `handleRemoveResourceFromModal`: exactly the draft's resources with that id are removed. */
  function RemoveResourceFromDraft(draft: AssignmentDraft, resourceId: string): (r: AssignmentDraft)
    ensures r == draft.(resources := r.resources)
    ensures forall x :: x in r.resources <==> x in draft.resources && x.id != resourceId
    ensures forall x :: x in draft.resources && x.id != resourceId ==>
      multiset(r.resources)[x] == multiset(draft.resources)[x]
    ensures Seqs.IsSubsequence(r.resources, draft.resources)
  {
    draft.(resources := Seqs.Filter(draft.resources, (x: Resource) => x.id != resourceId))
  }

  // ---------------------------------------------------------------------------
  // Hazards (IAP safety analysis)

  /** A hazard; the GAR score is what the 1-10 selector yields through `parseInt`, an integer. */
  datatype Hazard = Hazard(id: string, name: string, incidentArea: string, mitigations: string, garScore: int)

  datatype HazardDraft = HazardDraft(name: string, incidentArea: string, mitigations: string, garScore: int)

  /** `handleAddHazard`: rejected without a name; otherwise the drafted hazard is appended. */
  function AddHazard(hazards: seq<Hazard>, draft: HazardDraft, id: string): (r: Option<seq<Hazard>>)
    ensures r.None? <==> draft.name == ""
    ensures r.Some? ==> r.value == hazards + [Hazard(id, draft.name, draft.incidentArea, draft.mitigations, draft.garScore)]
  {
    if draft.name == "" then None
    else Some(hazards + [Hazard(id, draft.name, draft.incidentArea, draft.mitigations, draft.garScore)])
  }

  /** The `field`/`value` pair of `handleUpdateHazard`. */
  datatype HazardEdit =
    | SetHazardId(id: string) | SetHazardName(name: string) | SetIncidentArea(incidentArea: string)
    | SetMitigations(mitigations: string) | SetGarScore(garScore: int)

  function ApplyHazardEdit(h: Hazard, e: HazardEdit): Hazard
  {
    match e
    case SetHazardId(v) => h.(id := v)
    case SetHazardName(v) => h.(name := v)
    case SetIncidentArea(v) => h.(incidentArea := v)
    case SetMitigations(v) => h.(mitigations := v)
    case SetGarScore(v) => h.(garScore := v)
  }

  /** `handleUpdateHazard`: the hazards with that id get the edit; length and order are kept. */
  function UpdateHazard(hazards: seq<Hazard>, hazardId: string, e: HazardEdit): (r: seq<Hazard>)
    ensures |r| == |hazards|
    ensures forall i :: 0 <= i < |hazards| ==>
      r[i] == if hazards[i].id == hazardId then ApplyHazardEdit(hazards[i], e) else hazards[i]
  {
    Seqs.MapWhere(hazards, (h: Hazard) => h.id == hazardId, (h: Hazard) => ApplyHazardEdit(h, e))
  }

  /** `handleDeleteHazard`: exactly the hazards with that id are removed. */
  function DeleteHazard(hazards: seq<Hazard>, hazardId: string): (r: seq<Hazard>)
    ensures forall h :: h in r <==> h in hazards && h.id != hazardId
    ensures forall h :: h in hazards && h.id != hazardId ==> multiset(r)[h] == multiset(hazards)[h]
    ensures Seqs.IsSubsequence(r, hazards)
  {
    Seqs.Filter(hazards, (h: Hazard) => h.id != hazardId)
  }

  /** `getGarScoreColor`: 1-3 green, 4-6 yellow, 7-10 destructive, any other score muted. */
  function GarScoreColor(score: int): (r: string)
    ensures 1 <= score <= 3 <==> r == "text-green-500"
    ensures 4 <= score <= 6 <==> r == "text-yellow-500"
    ensures 7 <= score <= 10 <==> r == "text-destructive"
    ensures (score < 1 || score > 10) <==> r == "text-muted-foreground"
  {
    if 1 <= score <= 3 then "text-green-500"
    else if 4 <= score <= 6 then "text-yellow-500"
    else if 7 <= score <= 10 then "text-destructive"
    else "text-muted-foreground"
  }

  // ---------------------------------------------------------------------------
  // The payload entries

  function EncodeTactic(t: WorkTactic): Value
  {
    Obj(map["id" := Str(t.id), "name" := Str(t.name), "description" := Str(t.description),
            "assignedTo" := Str(t.assignedTo), "priority" := Str(t.priority)])
  }

  function DecodeTactic(v: Value): Option<WorkTactic>
  {
    if v.Obj? then
      var f := v.fields;
      if GetStr(f, "id").Some? && GetStr(f, "name").Some? && GetStr(f, "description").Some?
         && GetStr(f, "assignedTo").Some? && GetStr(f, "priority").Some?
      then Some(WorkTactic(f["id"].s, f["name"].s, f["description"].s, f["assignedTo"].s, f["priority"].s))
      else None
    else None
  }

  lemma DecodeTacticOfEncoded(t: WorkTactic)
    ensures DecodeTactic(EncodeTactic(t)) == Some(t)
  {
  }

  function EncodeStrategy(s: WorkStrategy): Value
  {
    Obj(map["id" := Str(s.id), "name" := Str(s.name), "description" := Str(s.description),
            "tactics" := EncodeList(s.tactics, EncodeTactic), "expanded" := Bool(s.expanded)])
  }

  function DecodeStrategy(v: Value): Option<WorkStrategy>
  {
    if v.Obj? then
      var f := v.fields;
      if GetStr(f, "id").Some? && GetStr(f, "name").Some? && GetStr(f, "description").Some?
         && "tactics" in f && DecodeList(f["tactics"], DecodeTactic).Some? && GetBool(f, "expanded").Some?
      then Some(WorkStrategy(f["id"].s, f["name"].s, f["description"].s,
                             DecodeList(f["tactics"], DecodeTactic).value, f["expanded"].b))
      else None
    else None
  }

  lemma DecodeStrategyOfEncoded(s: WorkStrategy)
    ensures DecodeStrategy(EncodeStrategy(s)) == Some(s)
  {
    forall i | 0 <= i < |s.tactics| ensures DecodeTactic(EncodeTactic(s.tactics[i])) == Some(s.tactics[i]) {
      DecodeTacticOfEncoded(s.tactics[i]);
    }
    DecodeListOfEncoded(s.tactics, EncodeTactic, DecodeTactic);
  }

  function EncodeObjective(o: WorkObjective): Value
  {
    Obj(map["id" := Str(o.id), "name" := Str(o.name), "description" := Str(o.description),
            "strategies" := EncodeList(o.strategies, EncodeStrategy), "expanded" := Bool(o.expanded)])
  }

  function DecodeObjective(v: Value): Option<WorkObjective>
  {
    if v.Obj? then
      var f := v.fields;
      if GetStr(f, "id").Some? && GetStr(f, "name").Some? && GetStr(f, "description").Some?
         && "strategies" in f && DecodeList(f["strategies"], DecodeStrategy).Some? && GetBool(f, "expanded").Some?
      then Some(WorkObjective(f["id"].s, f["name"].s, f["description"].s,
                              DecodeList(f["strategies"], DecodeStrategy).value, f["expanded"].b))
      else None
    else None
  }

  lemma DecodeObjectiveOfEncoded(o: WorkObjective)
    ensures DecodeObjective(EncodeObjective(o)) == Some(o)
  {
    forall i | 0 <= i < |o.strategies| ensures DecodeStrategy(EncodeStrategy(o.strategies[i])) == Some(o.strategies[i]) {
      DecodeStrategyOfEncoded(o.strategies[i]);
    }
    DecodeListOfEncoded(o.strategies, EncodeStrategy, DecodeStrategy);
  }

  function EncodeResource(x: Resource): Value
  {
    Obj(map["id" := Str(x.id), "name" := Str(x.name), "quantityRequired" := Num(x.quantityRequired as real),
            "quantityHad" := Num(x.quantityHad as real), "quantityNeeded" := Num(x.quantityNeeded as real)])
  }

  function DecodeResource(v: Value): Option<Resource>
  {
    if v.Obj? then
      var f := v.fields;
      if GetStr(f, "id").Some? && GetStr(f, "name").Some? && GetInt(f, "quantityRequired").Some?
         && GetInt(f, "quantityHad").Some? && GetInt(f, "quantityNeeded").Some?
      then Some(Resource(f["id"].s, f["name"].s, GetInt(f, "quantityRequired").value,
                         GetInt(f, "quantityHad").value, GetInt(f, "quantityNeeded").value))
      else None
    else None
  }

  lemma DecodeResourceOfEncoded(x: Resource)
    ensures DecodeResource(EncodeResource(x)) == Some(x)
  {
    var f := EncodeResource(x).fields;
    assert GetInt(f, "quantityRequired") == Some(x.quantityRequired);
    assert GetInt(f, "quantityHad") == Some(x.quantityHad);
    assert GetInt(f, "quantityNeeded") == Some(x.quantityNeeded);
  }

  function EncodeAssignment(w: WorkAssignment): Value
  {
    Obj(map["id" := Str(w.id), "name" := Str(w.name), "divisionGroupLocation" := Str(w.divisionGroupLocation),
            "resources" := EncodeList(w.resources, EncodeResource),
            "overheadPositions" := Str(w.overheadPositions),
            "specialEquipmentSupplies" := Str(w.specialEquipmentSupplies),
            "reportingLocation" := Str(w.reportingLocation),
            "requestedArrivalTime" := Str(w.requestedArrivalTime)])
  }

  function DecodeAssignment(v: Value): Option<WorkAssignment>
  {
    if v.Obj? then
      var f := v.fields;
      if GetStr(f, "id").Some? && GetStr(f, "name").Some? && GetStr(f, "divisionGroupLocation").Some?
         && "resources" in f && DecodeList(f["resources"], DecodeResource).Some?
         && GetStr(f, "overheadPositions").Some? && GetStr(f, "specialEquipmentSupplies").Some?
         && GetStr(f, "reportingLocation").Some? && GetStr(f, "requestedArrivalTime").Some?
      then Some(WorkAssignment(f["id"].s, f["name"].s, f["divisionGroupLocation"].s,
                               DecodeList(f["resources"], DecodeResource).value,
                               f["overheadPositions"].s, f["specialEquipmentSupplies"].s,
                               f["reportingLocation"].s, f["requestedArrivalTime"].s))
      else None
    else None
  }

  lemma DecodeAssignmentOfEncoded(w: WorkAssignment)
    ensures DecodeAssignment(EncodeAssignment(w)) == Some(w)
  {
    forall i | 0 <= i < |w.resources| ensures DecodeResource(EncodeResource(w.resources[i])) == Some(w.resources[i]) {
      DecodeResourceOfEncoded(w.resources[i]);
    }
    DecodeListOfEncoded(w.resources, EncodeResource, DecodeResource);
    AssignmentFields(w);
  }

  /** The entries of an encoded work assignment. */
  lemma AssignmentFields(w: WorkAssignment)
    ensures EncodeAssignment(w).Obj?
    ensures var f := EncodeAssignment(w).fields;
      && GetStr(f, "id") == Some(w.id) && GetStr(f, "name") == Some(w.name)
      && GetStr(f, "divisionGroupLocation") == Some(w.divisionGroupLocation)
      && "resources" in f && f["resources"] == EncodeList(w.resources, EncodeResource)
      && GetStr(f, "overheadPositions") == Some(w.overheadPositions)
      && GetStr(f, "specialEquipmentSupplies") == Some(w.specialEquipmentSupplies)
      && GetStr(f, "reportingLocation") == Some(w.reportingLocation)
      && GetStr(f, "requestedArrivalTime") == Some(w.requestedArrivalTime)
  {
  }

  function EncodeHazard(h: Hazard): Value
  {
    Obj(map["id" := Str(h.id), "name" := Str(h.name), "incidentArea" := Str(h.incidentArea),
            "mitigations" := Str(h.mitigations), "garScore" := Num(h.garScore as real)])
  }

  function DecodeHazard(v: Value): Option<Hazard>
  {
    if v.Obj? then
      var f := v.fields;
      if GetStr(f, "id").Some? && GetStr(f, "name").Some? && GetStr(f, "incidentArea").Some?
         && GetStr(f, "mitigations").Some? && GetInt(f, "garScore").Some?
      then Some(Hazard(f["id"].s, f["name"].s, f["incidentArea"].s, f["mitigations"].s, GetInt(f, "garScore").value))
      else None
    else None
  }

  lemma DecodeHazardOfEncoded(h: Hazard)
    ensures DecodeHazard(EncodeHazard(h)) == Some(h)
  {
    assert GetInt(EncodeHazard(h).fields, "garScore") == Some(h.garScore);
  }

  /** A resource request of the strategy-meeting form; only stored and read back here. */
  datatype ResourceRequest = ResourceRequest(id: string, item: string, quantity: string, notes: string)

  function EncodeRequest(q: ResourceRequest): Value
  {
    Obj(map["id" := Str(q.id), "item" := Str(q.item), "quantity" := Str(q.quantity), "notes" := Str(q.notes)])
  }

  function DecodeRequest(v: Value): Option<ResourceRequest>
  {
    if v.Obj? then
      var f := v.fields;
      if GetStr(f, "id").Some? && GetStr(f, "item").Some? && GetStr(f, "quantity").Some? && GetStr(f, "notes").Some?
      then Some(ResourceRequest(f["id"].s, f["item"].s, f["quantity"].s, f["notes"].s))
      else None
    else None
  }

  lemma DecodeRequestOfEncoded(q: ResourceRequest)
    ensures DecodeRequest(EncodeRequest(q)) == Some(q)
  {
  }
}
