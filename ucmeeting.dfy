/**
 * The meeting-phase editor (src/components/phases/InitialUCMeetingPhase.tsx),
 * used for the seven operational-period phases after the objectives meeting.
 * Its component state starts from the phase payload it receives as `data`;
 * every handler that changes state emits, through `updateData`, the incoming
 * payload overlaid with the whole new state. The action and meeting handlers
 * change no state: they emit a payload with a new `actions` or `meetings` list.
 */
module UcMeeting {
  import opened Wrappers
  import opened Payload
  import opened Forms
  import opened ActionTracker
  import opened WorkMatrix

  /** The state fields `updateData` writes into the payload. */
  datatype UcState = UcState(
    checkedItems: map<string, bool>, expandedItems: map<string, bool>, notes: map<string, string>,
    selectedLifelines: map<string, bool>, texts: IncidentTexts,
    workObjectives: seq<WorkObjective>, workAssignments: seq<WorkAssignment>,
    hazards: seq<Hazard>, resourceRequests: seq<ResourceRequest>)

  /** The entries of the state in the payload: four maps, eight texts and four lists. */
  datatype StateKey =
    | CheckedItemsKey | ExpandedItemsKey | NotesKey | SelectedLifelinesKey
    | TextEntry(field: TextField)
    | WorkObjectivesKey | WorkAssignmentsKey | HazardsKey | ResourceRequestsKey

  /** The payload key of each state entry. */
  function KeyName(k: StateKey): string
  {
    match k
    case CheckedItemsKey => "checkedItems"
    case ExpandedItemsKey => "expandedItems"
    case NotesKey => "notes"
    case SelectedLifelinesKey => "selectedLifelines"
    case TextEntry(f) => TextKey(f)
    case WorkObjectivesKey => "workObjectives"
    case WorkAssignmentsKey => "workAssignments"
    case HazardsKey => "hazards"
    case ResourceRequestsKey => "resourceRequests"
  }

  /** The sixteen state entries, in the order `updateData` spreads them. */
  function KeyOrder(): seq<StateKey>
  {
    [CheckedItemsKey, ExpandedItemsKey, NotesKey, SelectedLifelinesKey,
     TextEntry(IncidentPriorities), TextEntry(IncidentObjectives), TextEntry(CommandEmphasis),
     TextEntry(SiteSafetyPlanRequired), TextEntry(SiteSafetyPlanLocation),
     TextEntry(CriticalInformationRequirements), TextEntry(LimitationsConstraints),
     TextEntry(KeyDecisionsProcedures),
     WorkObjectivesKey, WorkAssignmentsKey, HazardsKey, ResourceRequestsKey]
  }

  /** Every state entry is written. */
  lemma StateKeyListed(k: StateKey)
    ensures k in KeyOrder()
  {
    if k.TextEntry? {
      match k.field
      case IncidentPriorities =>
      case IncidentObjectives =>
      case CommandEmphasis =>
      case SiteSafetyPlanRequired =>
      case SiteSafetyPlanLocation =>
      case CriticalInformationRequirements =>
      case LimitationsConstraints =>
      case KeyDecisionsProcedures =>
    }
  }

  /** The map and list entries have pairwise different keys. */
  lemma OtherNamesDistinct(a: StateKey, b: StateKey)
    requires !a.TextEntry? && !b.TextEntry? && a != b
    ensures KeyName(a) != KeyName(b)
  {
  }

  /** No text key is the key of a map or list entry. */
  lemma TextNameApart(f: TextField, b: StateKey)
    requires !b.TextEntry?
    ensures TextKey(f) != KeyName(b)
  {
  }

  /** Different state entries are stored under different keys. */
  lemma KeyNameDistinct(a: StateKey, b: StateKey)
    requires a != b
    ensures KeyName(a) != KeyName(b)
  {
    if a.TextEntry? && b.TextEntry? {
      if TextKey(a.field) == TextKey(b.field) {
        TextKeyInjective(a.field, b.field);
        assert false;
      }
    } else if a.TextEntry? {
      TextNameApart(a.field, b);
    } else if b.TextEntry? {
      TextNameApart(b.field, a);
    } else {
      OtherNamesDistinct(a, b);
    }
  }

  /** The action and meeting lists share the payload with the state but are not part of it. */
  lemma ListKeysOutsideState()
    ensures forall k :: KeyName(k) != "actions" && KeyName(k) != "meetings"
  {
  }

  /** No state entry overwrites the action or meeting list of the incoming payload. */
  lemma ListKeysNotInState(s: UcState)
    ensures "actions" !in StateFields(s) && "meetings" !in StateFields(s)
  {
    ListKeysOutsideState();
    SpreadOmits(KeyOrder(), KeyName, Entries(s), "actions");
    SpreadOmits(KeyOrder(), KeyName, Entries(s), "meetings");
  }

  /** The payload entry `updateData` writes for each state entry. */
  function FieldValue(s: UcState, k: StateKey): Value
  {
    match k
    case CheckedItemsKey => EncodeFlags(s.checkedItems)
    case ExpandedItemsKey => EncodeFlags(s.expandedItems)
    case NotesKey => EncodeTexts(s.notes)
    case SelectedLifelinesKey => EncodeFlags(s.selectedLifelines)
    case TextEntry(f) => Str(s.texts.Get(f))
    case WorkObjectivesKey => EncodeList(s.workObjectives, EncodeObjective)
    case WorkAssignmentsKey => EncodeList(s.workAssignments, EncodeAssignment)
    case HazardsKey => EncodeList(s.hazards, EncodeHazard)
    case ResourceRequestsKey => EncodeList(s.resourceRequests, EncodeRequest)
  }

  /** The payload entries of state `s`, by state entry. */
  function Entries(s: UcState): StateKey -> Value
  {
    k => FieldValue(s, k)
  }

  /** No two state entries share a payload key. */
  lemma NamesApart(k: StateKey)
    ensures forall j :: j in KeyOrder() && j != k ==> KeyName(j) != KeyName(k)
  {
    forall j | j in KeyOrder() && j != k ensures KeyName(j) != KeyName(k) {
      KeyNameDistinct(j, k);
    }
  }

  /** The state part of every payload `updateData` emits: the sixteen entries spread in order. */
  function StateFields(s: UcState): (r: Data)
    ensures forall k :: KeyName(k) in r && r[KeyName(k)] == FieldValue(s, k)
  {
    StateFieldsLookup(s);
    Spread(KeyOrder(), KeyName, Entries(s))
  }

  lemma StateFieldsLookup(s: UcState)
    ensures forall k :: KeyName(k) in Spread(KeyOrder(), KeyName, Entries(s))
                     && Spread(KeyOrder(), KeyName, Entries(s))[KeyName(k)] == FieldValue(s, k)
  {
    forall k ensures KeyName(k) in Spread(KeyOrder(), KeyName, Entries(s))
                  && Spread(KeyOrder(), KeyName, Entries(s))[KeyName(k)] == FieldValue(s, k) {
      StateKeyListed(k);
      NamesApart(k);
      SpreadLookup(KeyOrder(), KeyName, Entries(s), k);
    }
  }

  /** The `useState` initialisers: each field from its payload entry, or its default. */
  function InitialState(data: Data): UcState
  {
    UcState(FlagsOf(data, "checkedItems"), FlagsOf(data, "expandedItems"), NotesOf(data, "notes"),
            FlagsOf(data, "selectedLifelines"), TextsOf(data),
            ListOf(data, "workObjectives", DecodeObjective), ListOf(data, "workAssignments", DecodeAssignment),
            ListOf(data, "hazards", DecodeHazard), ListOf(data, "resourceRequests", DecodeRequest))
  }

  /**
   * A payload that carries a state's fields starts an editor in exactly that
   * state when the phase is shown again, unless the safety-plan field was
   * emptied: that one restarts as "No".
   */
  lemma InitialStateOfStored(data: Data, s: UcState)
    requires forall k :: KeyName(k) in data && data[KeyName(k)] == FieldValue(s, k)
    ensures InitialState(data) == s <==> s.texts.siteSafetyPlanRequired != ""
  {
    assert KeyName(CheckedItemsKey) in data && KeyName(ExpandedItemsKey) in data;
    assert KeyName(NotesKey) in data && KeyName(SelectedLifelinesKey) in data;
    MapsOfStored(data, s);
    assert KeyName(WorkObjectivesKey) in data && KeyName(WorkAssignmentsKey) in data;
    assert KeyName(HazardsKey) in data && KeyName(ResourceRequestsKey) in data;
    ListsOfStored(data, s);
    TextsOfStoredState(data, s);
  }

  /** The eight texts of a stored state read back, the emptied safety-plan field as "No". */
  lemma TextsOfStoredState(data: Data, s: UcState)
    requires forall f :: KeyName(TextEntry(f)) in data && data[KeyName(TextEntry(f))] == FieldValue(s, TextEntry(f))
    ensures TextsOf(data) == s.texts <==> s.texts.siteSafetyPlanRequired != ""
  {
    forall f ensures TextKey(f) in data && data[TextKey(f)] == Str(s.texts.Get(f)) {
      assert KeyName(TextEntry(f)) in data;
    }
    TextsOfStored(data, s.texts);
  }

  /** The four flag and note maps of a stored state read back unchanged. */
  lemma MapsOfStored(data: Data, s: UcState)
    requires "checkedItems" in data && data["checkedItems"] == EncodeFlags(s.checkedItems)
    requires "expandedItems" in data && data["expandedItems"] == EncodeFlags(s.expandedItems)
    requires "notes" in data && data["notes"] == EncodeTexts(s.notes)
    requires "selectedLifelines" in data && data["selectedLifelines"] == EncodeFlags(s.selectedLifelines)
    ensures FlagsOf(data, "checkedItems") == s.checkedItems
    ensures FlagsOf(data, "expandedItems") == s.expandedItems
    ensures NotesOf(data, "notes") == s.notes
    ensures FlagsOf(data, "selectedLifelines") == s.selectedLifelines
  {
    FlagsOfStored(data, "checkedItems", s.checkedItems);
    FlagsOfStored(data, "expandedItems", s.expandedItems);
    NotesOfStored(data, "notes", s.notes);
    FlagsOfStored(data, "selectedLifelines", s.selectedLifelines);
  }

  /** The four matrix, assignment, hazard and request lists of a stored state read back unchanged. */
  lemma ListsOfStored(data: Data, s: UcState)
    requires "workObjectives" in data && data["workObjectives"] == EncodeList(s.workObjectives, EncodeObjective)
    requires "workAssignments" in data && data["workAssignments"] == EncodeList(s.workAssignments, EncodeAssignment)
    requires "hazards" in data && data["hazards"] == EncodeList(s.hazards, EncodeHazard)
    requires "resourceRequests" in data && data["resourceRequests"] == EncodeList(s.resourceRequests, EncodeRequest)
    ensures ListOf(data, "workObjectives", DecodeObjective) == s.workObjectives
    ensures ListOf(data, "workAssignments", DecodeAssignment) == s.workAssignments
    ensures ListOf(data, "hazards", DecodeHazard) == s.hazards
    ensures ListOf(data, "resourceRequests", DecodeRequest) == s.resourceRequests
  {
    forall i | 0 <= i < |s.workObjectives|
      ensures DecodeObjective(EncodeObjective(s.workObjectives[i])) == Some(s.workObjectives[i]) {
      DecodeObjectiveOfEncoded(s.workObjectives[i]);
    }
    ListOfStored(data, "workObjectives", s.workObjectives, EncodeObjective, DecodeObjective);
    forall i | 0 <= i < |s.workAssignments|
      ensures DecodeAssignment(EncodeAssignment(s.workAssignments[i])) == Some(s.workAssignments[i]) {
      DecodeAssignmentOfEncoded(s.workAssignments[i]);
    }
    ListOfStored(data, "workAssignments", s.workAssignments, EncodeAssignment, DecodeAssignment);
    forall i | 0 <= i < |s.hazards| ensures DecodeHazard(EncodeHazard(s.hazards[i])) == Some(s.hazards[i]) {
      DecodeHazardOfEncoded(s.hazards[i]);
    }
    ListOfStored(data, "hazards", s.hazards, EncodeHazard, DecodeHazard);
    forall i | 0 <= i < |s.resourceRequests|
      ensures DecodeRequest(EncodeRequest(s.resourceRequests[i])) == Some(s.resourceRequests[i]) {
      DecodeRequestOfEncoded(s.resourceRequests[i]);
    }
    ListOfStored(data, "resourceRequests", s.resourceRequests, EncodeRequest, DecodeRequest);
  }

  /** When one state entry changes, the state part of the payload changes in that one entry. */
  lemma StateFieldsAfter(s: UcState, s2: UcState, k: StateKey)
    requires forall j :: j != k ==> FieldValue(s2, j) == FieldValue(s, j)
    ensures StateFields(s2) == StateFields(s)[KeyName(k) := FieldValue(s2, k)]
  {
    StateKeyListed(k);
    NamesApart(k);
    SpreadAfter(KeyOrder(), KeyName, Entries(s), Entries(s2), k);
  }

  /** Setting one text changes no other state entry. */
  lemma TextChangeElsewhere(s: UcState, f: TextField, v: string)
    ensures forall j :: j != TextEntry(f) ==> FieldValue(s.(texts := s.texts.With(f, v)), j) == FieldValue(s, j)
  {
  }

  /** `updateData` called after a handler changed one state entry, with its new value as the update. */
  lemma EmitAfterChange(data: Data, s: UcState, s2: UcState, k: StateKey)
    requires forall j :: j != k ==> FieldValue(s2, j) == FieldValue(s, j)
    ensures Merge(data, StateFields(s), map[KeyName(k) := FieldValue(s2, k)]) == data + StateFields(s2)
  {
    StateFieldsAfter(s, s2, k);
    MergeOfChangedField(data, StateFields(s), KeyName(k), FieldValue(s2, k));
  }

  /**
   * `updateData` with a new action or meeting list: the payload carries that
   * list, the other list of the incoming payload and every state entry.
   */
  lemma ListEntryEmitted(data: Data, s: UcState, key: string, v: Value)
    requires key == "actions" || key == "meetings"
    ensures var r := Merge(data, StateFields(s), map[key := v]);
      && key in r && r[key] == v
      && (forall k :: KeyName(k) in r && r[KeyName(k)] == FieldValue(s, k))
      && (key == "actions" ==> ("meetings" in r <==> "meetings" in data) && ("meetings" in r ==> r["meetings"] == data["meetings"]))
      && (key == "meetings" ==> ("actions" in r <==> "actions" in data) && ("actions" in r ==> r["actions"] == data["actions"]))
  {
    ListKeysOutsideState();
    ListKeysNotInState(s);
  }

  class UcMeetingEditor {
    /** The `data` prop: the stored payload of the phase on screen. */
    var data: Data
    var checkedItems: map<string, bool>
    var expandedItems: map<string, bool>
    var notes: map<string, string>
    var selectedLifelines: map<string, bool>
    var texts: IncidentTexts
    var workObjectives: seq<WorkObjective>
    var workAssignments: seq<WorkAssignment>
    var hazards: seq<Hazard>
    var resourceRequests: seq<ResourceRequest>

    function State(): UcState
      reads this
    {
      UcState(checkedItems, expandedItems, notes, selectedLifelines, texts,
              workObjectives, workAssignments, hazards, resourceRequests)
    }

    /** What `updateData({})` would emit now: the incoming payload overlaid with the state. */
    function Snapshot(): Data
      reads this
    {
      data + StateFields(State())
    }

    /** `updateData(updates)` with the current state. */
    function Emit(updates: Data): (r: Data)
      reads this
      ensures r.Keys == data.Keys + StateFields(State()).Keys + updates.Keys
      ensures forall k :: KeyName(k) !in updates ==> r[KeyName(k)] == FieldValue(State(), k)
      ensures forall k :: k in updates ==> r[k] == updates[k]
      ensures forall k :: k in data && k !in StateFields(State()) && k !in updates ==> r[k] == data[k]
    {
      Merge(data, StateFields(State()), updates)
    }

    /** Mounting the editor on a payload. */
    constructor (payload: Data)
      ensures data == payload && State() == InitialState(payload)
    {
      data := payload;
      var s := InitialState(payload);
      checkedItems, expandedItems, notes, selectedLifelines := s.checkedItems, s.expandedItems, s.notes, s.selectedLifelines;
      texts := s.texts;
      workObjectives, workAssignments, hazards, resourceRequests := s.workObjectives, s.workAssignments, s.hazards, s.resourceRequests;
    }

    /** The parent re-renders the editor with the payload it stored; the state stays. */
    method ReceiveData(payload: Data)
      modifies this`data
      ensures data == payload
    {
      data := payload;
    }

    /** A payload this editor emitted, mounted again, restores its state (see `InitialStateOfStored`). */
    lemma SnapshotRemounts()
      ensures InitialState(Snapshot()) == State() <==> texts.siteSafetyPlanRequired != ""
    {
      InitialStateOfStored(Snapshot(), State());
    }

    // -------------------------------------------------------------------------
    // Check-list, notes, lifelines and texts

    /** `handleItemCheck`: the item's flag is set; the payload carries the new state. */
    method HandleItemCheck(itemId: string, checked: bool) returns (emitted: Data)
      modifies this`checkedItems
      ensures checkedItems == Assign(old(checkedItems), itemId, checked)
      ensures emitted == Snapshot()
    {
      var before := State();
      checkedItems := Assign(checkedItems, itemId, checked);
      EmitAfterChange(data, before, State(), CheckedItemsKey);
      emitted := Merge(data, StateFields(before), map["checkedItems" := EncodeFlags(checkedItems)]);
    }

    /** `handleItemExpand`: the item's expanded flag flips; the payload carries the new state. */
    method HandleItemExpand(itemId: string) returns (emitted: Data)
      modifies this`expandedItems
      ensures expandedItems == ToggleFlag(old(expandedItems), itemId)
      ensures emitted == Snapshot()
    {
      var before := State();
      expandedItems := ToggleFlag(expandedItems, itemId);
      EmitAfterChange(data, before, State(), ExpandedItemsKey);
      emitted := Merge(data, StateFields(before), map["expandedItems" := EncodeFlags(expandedItems)]);
    }

    /** `handleNotesChange`: the item's note is replaced; the payload carries the new state. */
    method HandleNotesChange(itemId: string, noteText: string) returns (emitted: Data)
      modifies this`notes
      ensures notes == Assign(old(notes), itemId, noteText)
      ensures emitted == Snapshot()
    {
      var before := State();
      notes := Assign(notes, itemId, noteText);
      EmitAfterChange(data, before, State(), NotesKey);
      emitted := Merge(data, StateFields(before), map["notes" := EncodeTexts(notes)]);
    }

    /** `handleLifelineChange`: the lifeline's flag is set; the payload carries the new state. */
    method HandleLifelineChange(lifeline: string, checked: bool) returns (emitted: Data)
      modifies this`selectedLifelines
      ensures selectedLifelines == Assign(old(selectedLifelines), lifeline, checked)
      ensures emitted == Snapshot()
    {
      var before := State();
      selectedLifelines := Assign(selectedLifelines, lifeline, checked);
      EmitAfterChange(data, before, State(), SelectedLifelinesKey);
      emitted := Merge(data, StateFields(before), map["selectedLifelines" := EncodeFlags(selectedLifelines)]);
    }

    /** The eight text handlers (`handleIncidentPrioritiesChange`, ...): one text set; the payload carries the new state. */
    method HandleTextChange(field: TextField, value: string) returns (emitted: Data)
      modifies this`texts
      ensures texts == old(texts).With(field, value)
      ensures emitted == Snapshot()
    {
      var before := State();
      texts := texts.With(field, value);
      TextChangeElsewhere(before, field, value);
      EmitAfterChange(data, before, State(), TextEntry(field));
      emitted := Merge(data, StateFields(before), map[TextKey(field) := Str(value)]);
    }

    // -------------------------------------------------------------------------
    // Work analysis matrix

    /** Sets the objectives and emits the payload with the new state. */
    method SetWorkObjectives(updated: seq<WorkObjective>) returns (emitted: Data)
      modifies this`workObjectives
      ensures workObjectives == updated
      ensures emitted == Snapshot()
    {
      var before := State();
      workObjectives := updated;
      EmitAfterChange(data, before, State(), WorkObjectivesKey);
      emitted := Merge(data, StateFields(before), map["workObjectives" := EncodeList(updated, EncodeObjective)]);
    }

    /** `handleAddObjective`: nothing happens without a name. */
    method HandleAddObjective(name: string, description: string, id: string) returns (emitted: Option<Data>)
      modifies this`workObjectives
      ensures emitted.None? <==> name == ""
      ensures emitted.None? ==> workObjectives == old(workObjectives)
      ensures emitted.Some? ==> workObjectives == AddObjective(old(workObjectives), name, description, id).value
                                && emitted.value == Snapshot()
    {
      var updated := AddObjective(workObjectives, name, description, id);
      if updated.None? {
        return None;
      }
      var payload := SetWorkObjectives(updated.value);
      emitted := Some(payload);
    }

    /** `handleDeleteObjective`. */
    method HandleDeleteObjective(objectiveId: string) returns (emitted: Data)
      modifies this`workObjectives
      ensures workObjectives == DeleteObjective(old(workObjectives), objectiveId)
      ensures emitted == Snapshot()
    {
      emitted := SetWorkObjectives(DeleteObjective(workObjectives, objectiveId));
    }

    /** `handleToggleObjective`. */
    method HandleToggleObjective(objectiveId: string) returns (emitted: Data)
      modifies this`workObjectives
      ensures workObjectives == ToggleObjective(old(workObjectives), objectiveId)
      ensures emitted == Snapshot()
    {
      emitted := SetWorkObjectives(ToggleObjective(workObjectives, objectiveId));
    }

    /** `handleAddStrategy`: nothing happens without a name or a selected objective. */
    method HandleAddStrategy(selectedObjectiveId: string, name: string, description: string, id: string)
      returns (emitted: Option<Data>)
      modifies this`workObjectives
      ensures emitted.None? <==> name == "" || selectedObjectiveId == ""
      ensures emitted.None? ==> workObjectives == old(workObjectives)
      ensures emitted.Some? ==>
        workObjectives == AddStrategy(old(workObjectives), selectedObjectiveId, name, description, id).value
        && emitted.value == Snapshot()
    {
      var updated := AddStrategy(workObjectives, selectedObjectiveId, name, description, id);
      if updated.None? {
        return None;
      }
      var payload := SetWorkObjectives(updated.value);
      emitted := Some(payload);
    }

    /** `handleDeleteStrategy`. */
    method HandleDeleteStrategy(objectiveId: string, strategyId: string) returns (emitted: Data)
      modifies this`workObjectives
      ensures workObjectives == DeleteStrategy(old(workObjectives), objectiveId, strategyId)
      ensures emitted == Snapshot()
    {
      emitted := SetWorkObjectives(DeleteStrategy(workObjectives, objectiveId, strategyId));
    }

    /** `handleToggleStrategy`. */
    method HandleToggleStrategy(objectiveId: string, strategyId: string) returns (emitted: Data)
      modifies this`workObjectives
      ensures workObjectives == ToggleStrategy(old(workObjectives), objectiveId, strategyId)
      ensures emitted == Snapshot()
    {
      emitted := SetWorkObjectives(ToggleStrategy(workObjectives, objectiveId, strategyId));
    }

    /** `handleAddTactic`: nothing happens without a name, a selected objective and a selected strategy. */
    method HandleAddTactic(selectedObjectiveId: string, selectedStrategyId: string, draft: TacticDraft, id: string)
      returns (emitted: Option<Data>)
      modifies this`workObjectives
      ensures emitted.None? <==> draft.name == "" || selectedObjectiveId == "" || selectedStrategyId == ""
      ensures emitted.None? ==> workObjectives == old(workObjectives)
      ensures emitted.Some? ==>
        workObjectives == AddTactic(old(workObjectives), selectedObjectiveId, selectedStrategyId, draft, id).value
        && emitted.value == Snapshot()
    {
      var updated := AddTactic(workObjectives, selectedObjectiveId, selectedStrategyId, draft, id);
      if updated.None? {
        return None;
      }
      var payload := SetWorkObjectives(updated.value);
      emitted := Some(payload);
    }

    /** `handleDeleteTactic`. */
    method HandleDeleteTactic(objectiveId: string, strategyId: string, tacticId: string) returns (emitted: Data)
      modifies this`workObjectives
      ensures workObjectives == DeleteTactic(old(workObjectives), objectiveId, strategyId, tacticId)
      ensures emitted == Snapshot()
    {
      emitted := SetWorkObjectives(DeleteTactic(workObjectives, objectiveId, strategyId, tacticId));
    }

    // -------------------------------------------------------------------------
    // Work assignments

    /** Sets the work assignments and emits the payload with the new state. */
    method SetWorkAssignments(updated: seq<WorkAssignment>) returns (emitted: Data)
      modifies this`workAssignments
      ensures workAssignments == updated
      ensures emitted == Snapshot()
    {
      var before := State();
      workAssignments := updated;
      EmitAfterChange(data, before, State(), WorkAssignmentsKey);
      emitted := Merge(data, StateFields(before), map["workAssignments" := EncodeList(updated, EncodeAssignment)]);
    }

    /** `handleAddWorkAssignment`: nothing happens without a name. */
    method HandleAddWorkAssignment(draft: AssignmentDraft, id: string) returns (emitted: Option<Data>)
      modifies this`workAssignments
      ensures emitted.None? <==> draft.name == ""
      ensures emitted.None? ==> workAssignments == old(workAssignments)
      ensures emitted.Some? ==> workAssignments == AddWorkAssignment(old(workAssignments), draft, id).value
                                && emitted.value == Snapshot()
    {
      var updated := AddWorkAssignment(workAssignments, draft, id);
      if updated.None? {
        return None;
      }
      var payload := SetWorkAssignments(updated.value);
      emitted := Some(payload);
    }

    /** `handleUpdateWorkAssignment`. */
    method HandleUpdateWorkAssignment(assignmentId: string, e: AssignmentEdit) returns (emitted: Data)
      modifies this`workAssignments
      ensures workAssignments == UpdateWorkAssignment(old(workAssignments), assignmentId, e)
      ensures emitted == Snapshot()
    {
      emitted := SetWorkAssignments(UpdateWorkAssignment(workAssignments, assignmentId, e));
    }

    /** `handleDeleteWorkAssignment`. */
    method HandleDeleteWorkAssignment(assignmentId: string) returns (emitted: Data)
      modifies this`workAssignments
      ensures workAssignments == DeleteWorkAssignment(old(workAssignments), assignmentId)
      ensures emitted == Snapshot()
    {
      emitted := SetWorkAssignments(DeleteWorkAssignment(workAssignments, assignmentId));
    }

    /** `handleAddResourceToAssignment`. */
    method HandleAddResourceToAssignment(assignmentId: string, resource: Resource) returns (emitted: Data)
      modifies this`workAssignments
      ensures workAssignments == AddResourceToAssignment(old(workAssignments), assignmentId, resource)
      ensures emitted == Snapshot()
    {
      emitted := SetWorkAssignments(AddResourceToAssignment(workAssignments, assignmentId, resource));
    }

    /** `handleUpdateResource`. */
    method HandleUpdateResource(assignmentId: string, resourceId: string, e: ResourceEdit) returns (emitted: Data)
      modifies this`workAssignments
      ensures workAssignments == UpdateResource(old(workAssignments), assignmentId, resourceId, e)
      ensures emitted == Snapshot()
    {
      emitted := SetWorkAssignments(UpdateResource(workAssignments, assignmentId, resourceId, e));
    }

    /** `handleDeleteResource`. */
    method HandleDeleteResource(assignmentId: string, resourceId: string) returns (emitted: Data)
      modifies this`workAssignments
      ensures workAssignments == DeleteResource(old(workAssignments), assignmentId, resourceId)
      ensures emitted == Snapshot()
    {
      emitted := SetWorkAssignments(DeleteResource(workAssignments, assignmentId, resourceId));
    }

    // -------------------------------------------------------------------------
    // Hazards

    /** Sets the hazards and emits the payload with the new state. */
    method SetHazards(updated: seq<Hazard>) returns (emitted: Data)
      modifies this`hazards
      ensures hazards == updated
      ensures emitted == Snapshot()
    {
      var before := State();
      hazards := updated;
      EmitAfterChange(data, before, State(), HazardsKey);
      emitted := Merge(data, StateFields(before), map["hazards" := EncodeList(updated, EncodeHazard)]);
    }

    /** `handleAddHazard`: nothing happens without a name. */
    method HandleAddHazard(draft: HazardDraft, id: string) returns (emitted: Option<Data>)
      modifies this`hazards
      ensures emitted.None? <==> draft.name == ""
      ensures emitted.None? ==> hazards == old(hazards)
      ensures emitted.Some? ==> hazards == AddHazard(old(hazards), draft, id).value && emitted.value == Snapshot()
    {
      var updated := AddHazard(hazards, draft, id);
      if updated.None? {
        return None;
      }
      var payload := SetHazards(updated.value);
      emitted := Some(payload);
    }

    /** `handleUpdateHazard`. */
    method HandleUpdateHazard(hazardId: string, e: HazardEdit) returns (emitted: Data)
      modifies this`hazards
      ensures hazards == UpdateHazard(old(hazards), hazardId, e)
      ensures emitted == Snapshot()
    {
      emitted := SetHazards(UpdateHazard(hazards, hazardId, e));
    }

    /** `handleDeleteHazard`. */
    method HandleDeleteHazard(hazardId: string) returns (emitted: Data)
      modifies this`hazards
      ensures hazards == DeleteHazard(old(hazards), hazardId)
      ensures emitted == Snapshot()
    {
      emitted := SetHazards(DeleteHazard(hazards, hazardId));
    }

    // -------------------------------------------------------------------------
    // Actions and meetings: read from `data`, written through the payload only

    /**
     * `handleAddAction`: nothing is emitted without a task name and a point of
     * contact; otherwise the payload's action list is the list of `data` with
     * the new action appended, and its state entries are the current state.
     */
    function HandleAddAction(draft: ActionDraft, id: string, now: Time): (r: Option<Data>)
      reads this
      ensures r.None? <==> draft.taskName == "" || draft.pointOfContact == ""
      ensures r.Some? ==> ActionsOf(r.value) == AddAction(ActionsOf(data), draft, id, now).value
      ensures r.Some? ==> forall k :: KeyName(k) in r.value && r.value[KeyName(k)] == FieldValue(State(), k)
      ensures r.Some? ==> MeetingsOf(r.value) == MeetingsOf(data)
    {
      match AddAction(ActionsOf(data), draft, id, now)
      case None => None
      case Some(updated) =>
        var v := EncodeList(updated, EncodeAction);
        var r := Emit(map["actions" := v]);
        ListEntryEmitted(data, State(), "actions", v);
        ActionsOfStored(r, updated);
        ListOfSameEntry(r, data, "meetings", DecodeMeeting);
        Some(r)
    }

    /** `handleUpdateAction`: the payload's action list is the edited list of `data`. */
    function HandleUpdateAction(actionId: string, e: ActionEdit): (r: Data)
      reads this
      ensures ActionsOf(r) == UpdateAction(ActionsOf(data), actionId, e)
      ensures forall k :: KeyName(k) in r && r[KeyName(k)] == FieldValue(State(), k)
      ensures MeetingsOf(r) == MeetingsOf(data)
    {
      var updated := UpdateAction(ActionsOf(data), actionId, e);
      var v := EncodeList(updated, EncodeAction);
      var r := Emit(map["actions" := v]);
      ListEntryEmitted(data, State(), "actions", v);
      ActionsOfStored(r, updated);
      ListOfSameEntry(r, data, "meetings", DecodeMeeting);
      r
    }

    /** `handleDeleteAction`: the payload's action list is the list of `data` without that id. */
    function HandleDeleteAction(actionId: string): (r: Data)
      reads this
      ensures ActionsOf(r) == DeleteAction(ActionsOf(data), actionId)
      ensures forall k :: KeyName(k) in r && r[KeyName(k)] == FieldValue(State(), k)
      ensures MeetingsOf(r) == MeetingsOf(data)
    {
      var updated := DeleteAction(ActionsOf(data), actionId);
      var v := EncodeList(updated, EncodeAction);
      var r := Emit(map["actions" := v]);
      ListEntryEmitted(data, State(), "actions", v);
      ActionsOfStored(r, updated);
      ListOfSameEntry(r, data, "meetings", DecodeMeeting);
      r
    }

    /** `handleCreateMeeting`: the payload's meeting list is the list of `data` with the new meeting appended. */
    function HandleCreateMeeting(details: MeetingDetails, id: string, now: Time): (r: Data)
      reads this
      ensures MeetingsOf(r) == CreateMeeting(MeetingsOf(data), details, id, now)
      ensures forall k :: KeyName(k) in r && r[KeyName(k)] == FieldValue(State(), k)
      ensures ActionsOf(r) == ActionsOf(data)
    {
      var updated := CreateMeeting(MeetingsOf(data), details, id, now);
      var v := EncodeList(updated, EncodeMeeting);
      var r := Emit(map["meetings" := v]);
      ListEntryEmitted(data, State(), "meetings", v);
      MeetingsOfStored(r, updated);
      ListOfSameEntry(r, data, "actions", DecodeAction);
      r
    }

    /** `handleDeleteMeeting`: the payload's meeting list is the list of `data` without that id. */
    function HandleDeleteMeeting(meetingId: string): (r: Data)
      reads this
      ensures MeetingsOf(r) == DeleteMeeting(MeetingsOf(data), meetingId)
      ensures forall k :: KeyName(k) in r && r[KeyName(k)] == FieldValue(State(), k)
      ensures ActionsOf(r) == ActionsOf(data)
    {
      var updated := DeleteMeeting(MeetingsOf(data), meetingId);
      var v := EncodeList(updated, EncodeMeeting);
      var r := Emit(map["meetings" := v]);
      ListEntryEmitted(data, State(), "meetings", v);
      MeetingsOfStored(r, updated);
      ListOfSameEntry(r, data, "actions", DecodeAction);
      r
    }

    /** The meeting editor never blocks completion: `allItemsCompleted` is constantly true. */
    predicate AllItemsCompleted()
    {
      true
    }
  }
}
