/**
 * The objectives-meeting editor (src/components/phases/ICUCObjectivesPhase.tsx),
 * the first phase of every operational period. Like the meeting editor, it
 * keeps its form state in fields that start from the phase payload and emits,
 * through `updateData`, the incoming payload overlaid with the whole state;
 * its state has the expanded-threat and expanded-tactic maps instead of the
 * work-analysis lists. The threat alerts are state too, but `updateData` never
 * writes them, and they change only when a `threat-update` event arrives.
 */
module IcUcObjectives {
  import opened Wrappers
  import opened Payload
  import opened JsText
  import opened Seqs
  import opened Forms
  import opened ActionTracker

  // ---------------------------------------------------------------------------
  // Threat alerts

  datatype ThreatAlert = ThreatAlert(
    id: string, threatType: string, description: string, severity: string, location: string,
    timeDetected: string, status: string, assignedTo: string, createdAt: Time)

  /** The description of the default alert. */
  const DefaultThreatDescription: string :=
    "Multiple unauthorized drones detected entering Temporary Flight Restriction zone - immediate response required"

  /** The alert list an editor starts from when the payload has none, created at `now`. */
  function DefaultThreats(now: Time): (r: seq<ThreatAlert>)
    ensures |r| == 1 && r[0].id == "1" && r[0].severity == "Critical" && r[0].status == "Active" && r[0].createdAt == now
  {
    [ThreatAlert("1", "High-Risk Drones Approaching TFR",
                 DefaultThreatDescription,
                 "Critical", "Miami NSSE - AOR 1", "14:23", "Active", "Airspace Security Unit", now)]
  }

  function EncodeThreat(t: ThreatAlert): Value
  {
    Obj(map["id" := Str(t.id), "threatType" := Str(t.threatType), "description" := Str(t.description),
            "severity" := Str(t.severity), "location" := Str(t.location), "timeDetected" := Str(t.timeDetected),
            "status" := Str(t.status), "assignedTo" := Str(t.assignedTo), "createdAt" := Date(t.createdAt)])
  }

  function DecodeThreat(v: Value): Option<ThreatAlert>
  {
    if v.Obj? then
      var f := v.fields;
      if && GetStr(f, "id").Some? && GetStr(f, "threatType").Some? && GetStr(f, "description").Some?
         && GetStr(f, "severity").Some? && GetStr(f, "location").Some? && GetStr(f, "timeDetected").Some?
         && GetStr(f, "status").Some? && GetStr(f, "assignedTo").Some? && GetDate(f, "createdAt").Some?
      then Some(ThreatAlert(f["id"].s, f["threatType"].s, f["description"].s, f["severity"].s, f["location"].s,
                            f["timeDetected"].s, f["status"].s, f["assignedTo"].s, f["createdAt"].time))
      else None
    else None
  }

  lemma DecodeThreatOfEncoded(t: ThreatAlert)
    ensures DecodeThreat(EncodeThreat(t)) == Some(t)
  {
    ThreatFieldsFirst(t);
    ThreatFieldsRest(t);
  }

  /** The first five entries of an encoded alert. */
  lemma ThreatFieldsFirst(t: ThreatAlert)
    ensures EncodeThreat(t).Obj?
    ensures var f := EncodeThreat(t).fields;
      && GetStr(f, "id") == Some(t.id) && GetStr(f, "threatType") == Some(t.threatType)
      && GetStr(f, "description") == Some(t.description) && GetStr(f, "severity") == Some(t.severity)
      && GetStr(f, "location") == Some(t.location)
  {
  }

  /** The last four entries of an encoded alert. */
  lemma ThreatFieldsRest(t: ThreatAlert)
    ensures EncodeThreat(t).Obj?
    ensures var f := EncodeThreat(t).fields;
      && GetStr(f, "timeDetected") == Some(t.timeDetected) && GetStr(f, "status") == Some(t.status)
      && GetStr(f, "assignedTo") == Some(t.assignedTo) && GetDate(f, "createdAt") == Some(t.createdAt)
  {
  }

  /**
   * `data.threats || [...]`: the stored alert list, or the default alert
   * when the payload has none (a malformed entry reads as none).
   */
  function ThreatsOf(data: Data, now: Time): seq<ThreatAlert>
  {
    if "threats" in data && DecodeList(data["threats"], DecodeThreat).Some?
    then DecodeList(data["threats"], DecodeThreat).value
    else DefaultThreats(now)
  }

  /** A stored alert list is read back unchanged; without one, the editor shows the default alert. */
  lemma ThreatsOfStored(data: Data, threats: seq<ThreatAlert>, now: Time)
    ensures "threats" in data && data["threats"] == EncodeList(threats, EncodeThreat) ==> ThreatsOf(data, now) == threats
    ensures "threats" !in data ==> ThreatsOf(data, now) == DefaultThreats(now)
  {
    forall i | 0 <= i < |threats| ensures DecodeThreat(EncodeThreat(threats[i])) == Some(threats[i]) {
      DecodeThreatOfEncoded(threats[i]);
    }
    DecodeListOfEncoded(threats, EncodeThreat, DecodeThreat);
  }

  /** The `detail` of a `threat-update` event; either member may be absent. */
  datatype ThreatDetail = ThreatDetail(threatType: Option<string>, severity: Option<string>)

  /** `detail.type || ''`: the threat type an update applies to (absent reads as ""). */
  function TargetType(d: ThreatDetail): string
  {
    OrElse(d.threatType.GetOr(""), "")
  }

  /**
   * The `threat-update` listener: without a detail nothing changes; otherwise
   * every alert whose type is the detail's type takes the detail's severity,
   * or keeps its own when the detail has none (or an empty one).
   */
  function ThreatsAfterUpdate(threats: seq<ThreatAlert>, detail: Option<ThreatDetail>): (r: seq<ThreatAlert>)
    ensures |r| == |threats|
    ensures detail.None? ==> r == threats
    ensures detail.Some? ==> forall i :: 0 <= i < |threats| ==>
      r[i] == if threats[i].threatType == TargetType(detail.value)
              then threats[i].(severity := OrElse(detail.value.severity.GetOr(""), threats[i].severity))
              else threats[i]
  {
    match detail
    case None => threats
    case Some(d) =>
      MapWhere(threats, (t: ThreatAlert) => t.threatType == TargetType(d),
               (t: ThreatAlert) => t.(severity := OrElse(d.severity.GetOr(""), t.severity)))
  }

  /**
   * An update changes nothing but severities, and only on alerts of the
   * target type; with a non-empty severity, exactly those alerts have it.
   */
  lemma ThreatUpdateOnlySeverity(threats: seq<ThreatAlert>, d: ThreatDetail, i: nat)
    requires i < |threats|
    ensures var r := ThreatsAfterUpdate(threats, Some(d));
      && r[i].(severity := threats[i].severity) == threats[i]
      && (threats[i].threatType != TargetType(d) ==> r[i] == threats[i])
      && ((d.severity.Some? && d.severity.value != "" && threats[i].threatType == TargetType(d))
          ==> r[i].severity == d.severity.value)
  {
  }

  /** Receiving the same update twice has the effect of receiving it once. */
  lemma ThreatUpdateIdempotent(threats: seq<ThreatAlert>, detail: Option<ThreatDetail>)
    ensures ThreatsAfterUpdate(ThreatsAfterUpdate(threats, detail), detail) == ThreatsAfterUpdate(threats, detail)
  {
    var once := ThreatsAfterUpdate(threats, detail);
    var twice := ThreatsAfterUpdate(once, detail);
    forall i | 0 <= i < |threats| ensures twice[i] == once[i] {
      if detail.Some? && threats[i].threatType == TargetType(detail.value) {
        assert once[i].threatType == threats[i].threatType;
      }
    }
  }

  /** `getSeverityColor`: the badge colour of a severity; anything unlisted is gray. */
  function SeverityColor(severity: string): (r: string)
    ensures severity == "Critical" ==> r == "bg-red-500 text-white"
    ensures severity == "High" ==> r == "bg-orange-500 text-white"
    ensures severity == "Low" ==> r == "bg-green-500 text-white"
    ensures severity in {"Response In Progress", "Neutralized", "Medium"} ==> r == "bg-yellow-500 text-black"
    ensures r == "bg-gray-500 text-white" <==>
      severity !in {"Critical", "Response In Progress", "Neutralized", "High", "Medium", "Low"}
  {
    match severity
    case "Critical" => "bg-red-500 text-white"
    case "Response In Progress" => "bg-yellow-500 text-black"
    case "Neutralized" => "bg-yellow-500 text-black"
    case "High" => "bg-orange-500 text-white"
    case "Medium" => "bg-yellow-500 text-black"
    case "Low" => "bg-green-500 text-white"
    case _ => "bg-gray-500 text-white"
  }

  // ---------------------------------------------------------------------------
  // The agenda check-list

  /** The ids of the ten agenda items, in display order. */
  function AgendaIds(): seq<string>
  {
    ["rollcall-agenda", "review-priorities", "review-objectives", "update-decisions", "identify-constraints",
     "develop-cirs", "develop-procedures", "uc-workload", "review-decisions-schedule", "closing-comments"]
  }

  /** `items.every(item => checkedItems[item.id])`, item by item. */
  predicate EveryChecked(ids: seq<string>, checked: map<string, bool>)
  {
    ids == [] || (Flag(checked, ids[0]) && EveryChecked(ids[1..], checked))
  }

  /** `every` holds exactly when no listed id is unchecked. */
  lemma {:induction false} EveryCheckedIff(ids: seq<string>, checked: map<string, bool>)
    ensures EveryChecked(ids, checked) <==> forall i :: 0 <= i < |ids| ==> Flag(checked, ids[i])
  {
    if ids != [] {
      EveryCheckedIff(ids[1..], checked);
      assert forall i :: 1 <= i < |ids| ==> ids[i] == ids[1..][i - 1];
    }
  }

  /** `allItemsCompleted`: the phase can be completed once every agenda item is checked. */
  predicate AllItemsCompleted(checked: map<string, bool>)
  {
    EveryChecked(AgendaIds(), checked)
  }

  /** Completable exactly when all ten agenda ids are checked. */
  lemma AllItemsCompletedIff(checked: map<string, bool>)
    ensures AllItemsCompleted(checked) <==> forall id :: id in AgendaIds() ==> Flag(checked, id)
  {
    EveryCheckedIff(AgendaIds(), checked);
  }

  /** Unchecking an agenda item makes the phase not completable; checking one keeps a completable phase completable. */
  lemma CheckKeepsCompletion(checked: map<string, bool>, id: string, value: bool)
    ensures id in AgendaIds() && !value ==> !AllItemsCompleted(Assign(checked, id, value))
    ensures AllItemsCompleted(checked) && value ==> AllItemsCompleted(Assign(checked, id, value))
  {
    AllItemsCompletedIff(checked);
    AllItemsCompletedIff(Assign(checked, id, value));
  }

  // ---------------------------------------------------------------------------
  // The state `updateData` writes

  datatype ObjectivesState = ObjectivesState(
    checkedItems: map<string, bool>, expandedItems: map<string, bool>, notes: map<string, string>,
    expandedThreats: map<string, bool>, expandedTactics: map<string, bool>,
    selectedLifelines: map<string, bool>, texts: IncidentTexts)

  /** The entries of the state in the payload: six maps and eight texts. */
  datatype StateKey =
    | CheckedItemsKey | ExpandedItemsKey | NotesKey | ExpandedThreatsKey | ExpandedTacticsKey
    | SelectedLifelinesKey | TextEntry(field: TextField)

  function KeyName(k: StateKey): string
  {
    match k
    case CheckedItemsKey => "checkedItems"
    case ExpandedItemsKey => "expandedItems"
    case NotesKey => "notes"
    case ExpandedThreatsKey => "expandedThreats"
    case ExpandedTacticsKey => "expandedTactics"
    case SelectedLifelinesKey => "selectedLifelines"
    case TextEntry(f) => TextKey(f)
  }

  /** The fourteen state entries, in the order `updateData` spreads them. */
  function KeyOrder(): seq<StateKey>
  {
    [CheckedItemsKey, ExpandedItemsKey, NotesKey, ExpandedThreatsKey, ExpandedTacticsKey, SelectedLifelinesKey,
     TextEntry(IncidentPriorities), TextEntry(IncidentObjectives), TextEntry(CommandEmphasis),
     TextEntry(SiteSafetyPlanRequired), TextEntry(SiteSafetyPlanLocation),
     TextEntry(CriticalInformationRequirements), TextEntry(LimitationsConstraints),
     TextEntry(KeyDecisionsProcedures)]
  }

  lemma StateKeyListed(k: StateKey)
    ensures k in KeyOrder()
  {
    if k.TextEntry? {
      match k.field
      case IncidentPriorities =>
      case IncidentObjectives =>
      case CommandEmphasis =>
      case SiteSafetyPlanRequired =>
      case SiteSafetyPlanLocation =>
      case CriticalInformationRequirements =>
      case LimitationsConstraints =>
      case KeyDecisionsProcedures =>
    }
  }

  lemma MapNamesDistinct(a: StateKey, b: StateKey)
    requires !a.TextEntry? && !b.TextEntry? && a != b
    ensures KeyName(a) != KeyName(b)
  {
  }

  lemma TextNameApart(f: TextField, b: StateKey)
    requires !b.TextEntry?
    ensures TextKey(f) != KeyName(b)
  {
  }

  /** Different state entries are stored under different keys. */
  lemma KeyNameDistinct(a: StateKey, b: StateKey)
    requires a != b
    ensures KeyName(a) != KeyName(b)
  {
    if a.TextEntry? && b.TextEntry? {
      if TextKey(a.field) == TextKey(b.field) {
        TextKeyInjective(a.field, b.field);
        assert false;
      }
    } else if a.TextEntry? {
      TextNameApart(a.field, b);
    } else if b.TextEntry? {
      TextNameApart(b.field, a);
    } else {
      MapNamesDistinct(a, b);
    }
  }

  lemma NamesApart(k: StateKey)
    ensures forall j :: j in KeyOrder() && j != k ==> KeyName(j) != KeyName(k)
  {
    forall j | j in KeyOrder() && j != k ensures KeyName(j) != KeyName(k) {
      KeyNameDistinct(j, k);
    }
  }

  /** The threat alerts and the action and meeting lists are not among the state entries. */
  lemma OtherKeysOutsideState()
    ensures forall k :: KeyName(k) != "threats" && KeyName(k) != "actions" && KeyName(k) != "meetings"
  {
  }

  function FieldValue(s: ObjectivesState, k: StateKey): Value
  {
    match k
    case CheckedItemsKey => EncodeFlags(s.checkedItems)
    case ExpandedItemsKey => EncodeFlags(s.expandedItems)
    case NotesKey => EncodeTexts(s.notes)
    case ExpandedThreatsKey => EncodeFlags(s.expandedThreats)
    case ExpandedTacticsKey => EncodeFlags(s.expandedTactics)
    case SelectedLifelinesKey => EncodeFlags(s.selectedLifelines)
    case TextEntry(f) => Str(s.texts.Get(f))
  }

  function Entries(s: ObjectivesState): StateKey -> Value
  {
    k => FieldValue(s, k)
  }

  /** The state part of every payload `updateData` emits: the fourteen entries spread in order. */
  function StateFields(s: ObjectivesState): (r: Data)
    ensures forall k :: KeyName(k) in r && r[KeyName(k)] == FieldValue(s, k)
  {
    StateFieldsLookup(s);
    Spread(KeyOrder(), KeyName, Entries(s))
  }

  lemma StateFieldsLookup(s: ObjectivesState)
    ensures forall k :: KeyName(k) in Spread(KeyOrder(), KeyName, Entries(s))
                     && Spread(KeyOrder(), KeyName, Entries(s))[KeyName(k)] == FieldValue(s, k)
  {
    forall k ensures KeyName(k) in Spread(KeyOrder(), KeyName, Entries(s))
                  && Spread(KeyOrder(), KeyName, Entries(s))[KeyName(k)] == FieldValue(s, k) {
      StateKeyListed(k);
      NamesApart(k);
      SpreadLookup(KeyOrder(), KeyName, Entries(s), k);
    }
  }

  /** No state entry overwrites the alerts, actions or meetings of the incoming payload. */
  lemma OtherKeysNotInState(s: ObjectivesState)
    ensures "threats" !in StateFields(s) && "actions" !in StateFields(s) && "meetings" !in StateFields(s)
  {
    OtherKeysOutsideState();
    SpreadOmits(KeyOrder(), KeyName, Entries(s), "threats");
    SpreadOmits(KeyOrder(), KeyName, Entries(s), "actions");
    SpreadOmits(KeyOrder(), KeyName, Entries(s), "meetings");
  }

  /** The `useState` initialisers: each field from its payload entry, or its default. */
  function InitialState(data: Data): ObjectivesState
  {
    ObjectivesState(FlagsOf(data, "checkedItems"), FlagsOf(data, "expandedItems"), NotesOf(data, "notes"),
                    FlagsOf(data, "expandedThreats"), FlagsOf(data, "expandedTactics"),
                    FlagsOf(data, "selectedLifelines"), TextsOf(data))
  }

  /**
   * A payload that carries a state's entries starts an editor in exactly that
   * state, unless the safety-plan field was emptied: that one restarts as "No".
   */
  lemma InitialStateOfStored(data: Data, s: ObjectivesState)
    requires forall k :: KeyName(k) in data && data[KeyName(k)] == FieldValue(s, k)
    ensures InitialState(data) == s <==> s.texts.siteSafetyPlanRequired != ""
  {
    assert KeyName(CheckedItemsKey) in data && KeyName(ExpandedItemsKey) in data && KeyName(NotesKey) in data;
    assert KeyName(ExpandedThreatsKey) in data && KeyName(ExpandedTacticsKey) in data;
    assert KeyName(SelectedLifelinesKey) in data;
    FlagsOfStored(data, "checkedItems", s.checkedItems);
    FlagsOfStored(data, "expandedItems", s.expandedItems);
    NotesOfStored(data, "notes", s.notes);
    FlagsOfStored(data, "expandedThreats", s.expandedThreats);
    FlagsOfStored(data, "expandedTactics", s.expandedTactics);
    FlagsOfStored(data, "selectedLifelines", s.selectedLifelines);
    forall f ensures TextKey(f) in data && data[TextKey(f)] == Str(s.texts.Get(f)) {
      assert KeyName(TextEntry(f)) in data;
    }
    TextsOfStored(data, s.texts);
  }

  /** `updateData` called after a handler changed one state entry, with its new value as the update. */
  lemma EmitAfterChange(data: Data, s: ObjectivesState, s2: ObjectivesState, k: StateKey)
    requires forall j :: j != k ==> FieldValue(s2, j) == FieldValue(s, j)
    ensures Merge(data, StateFields(s), map[KeyName(k) := FieldValue(s2, k)]) == data + StateFields(s2)
  {
    StateKeyListed(k);
    NamesApart(k);
    SpreadAfter(KeyOrder(), KeyName, Entries(s), Entries(s2), k);
    MergeOfChangedField(data, StateFields(s), KeyName(k), FieldValue(s2, k));
  }

  /** Setting one text changes no other state entry. */
  lemma TextChangeElsewhere(s: ObjectivesState, f: TextField, v: string)
    ensures forall j :: j != TextEntry(f) ==> FieldValue(s.(texts := s.texts.With(f, v)), j) == FieldValue(s, j)
  {
  }

  /**
   * `updateData` with a new action or meeting list: the payload carries that
   * list, the other list of the incoming payload and every state entry.
   */
  lemma ListEntryEmitted(data: Data, s: ObjectivesState, key: string, v: Value)
    requires key == "actions" || key == "meetings"
    ensures var r := Merge(data, StateFields(s), map[key := v]);
      && key in r && r[key] == v
      && (forall k :: KeyName(k) in r && r[KeyName(k)] == FieldValue(s, k))
      && (key == "actions" ==> ("meetings" in r <==> "meetings" in data) && ("meetings" in r ==> r["meetings"] == data["meetings"]))
      && (key == "meetings" ==> ("actions" in r <==> "actions" in data) && ("actions" in r ==> r["actions"] == data["actions"]))
  {
    OtherKeysOutsideState();
    OtherKeysNotInState(s);
  }

  // ---------------------------------------------------------------------------
  // The editor

  class ObjectivesEditor {
    /** The `data` prop: the stored payload of the phase on screen. */
    var data: Data
    var checkedItems: map<string, bool>
    var expandedItems: map<string, bool>
    var notes: map<string, string>
    var expandedThreats: map<string, bool>
    var expandedTactics: map<string, bool>
    var selectedLifelines: map<string, bool>
    var texts: IncidentTexts
    var threats: seq<ThreatAlert>

    function State(): ObjectivesState
      reads this
    {
      ObjectivesState(checkedItems, expandedItems, notes, expandedThreats, expandedTactics, selectedLifelines, texts)
    }

    /** What `updateData({})` would emit now: the incoming payload overlaid with the state. */
    function Snapshot(): Data
      reads this
    {
      data + StateFields(State())
    }

    /** `updateData(updates)` with the current state. */
    function Emit(updates: Data): (r: Data)
      reads this
      ensures r.Keys == data.Keys + StateFields(State()).Keys + updates.Keys
      ensures forall k :: KeyName(k) !in updates ==> r[KeyName(k)] == FieldValue(State(), k)
      ensures forall k :: k in updates ==> r[k] == updates[k]
      ensures forall k :: k in data && k !in StateFields(State()) && k !in updates ==> r[k] == data[k]
    {
      Merge(data, StateFields(State()), updates)
    }

    /** Mounting the editor on a payload at time `now` (the default alert's creation time). */
    constructor (payload: Data, now: Time)
      ensures data == payload && State() == InitialState(payload) && threats == ThreatsOf(payload, now)
    {
      data := payload;
      var s := InitialState(payload);
      checkedItems, expandedItems, notes := s.checkedItems, s.expandedItems, s.notes;
      expandedThreats, expandedTactics, selectedLifelines := s.expandedThreats, s.expandedTactics, s.selectedLifelines;
      texts := s.texts;
      threats := ThreatsOf(payload, now);
    }

    /** The parent re-renders the editor with the payload it stored; the state stays. */
    method ReceiveData(payload: Data)
      modifies this`data
      ensures data == payload
    {
      data := payload;
    }

    /** A payload this editor emitted, mounted again, restores its state (see `InitialStateOfStored`). */
    lemma SnapshotRemounts()
      ensures InitialState(Snapshot()) == State() <==> texts.siteSafetyPlanRequired != ""
    {
      InitialStateOfStored(Snapshot(), State());
    }

    /**
     * The alerts are never written back: an editor mounted on what this one
     * emits starts from the alerts of the payload it was given, whatever
     * updates it received.
     */
    lemma ThreatsNotEmitted(updates: Data, now: Time)
      requires "threats" !in updates
      ensures ThreatsOf(Emit(updates), now) == ThreatsOf(data, now)
    {
      OtherKeysNotInState(State());
    }

    /** `allItemsCompleted`: whether the Complete button is enabled. */
    predicate CanComplete()
      reads this
    {
      AllItemsCompleted(checkedItems)
    }

    // -------------------------------------------------------------------------
    // State handlers

    /** `handleItemCheck`: the item's flag is set; the payload carries the new state. */
    method HandleItemCheck(itemId: string, checked: bool) returns (emitted: Data)
      modifies this`checkedItems
      ensures checkedItems == Assign(old(checkedItems), itemId, checked)
      ensures emitted == Snapshot()
    {
      var before := State();
      checkedItems := Assign(checkedItems, itemId, checked);
      EmitAfterChange(data, before, State(), CheckedItemsKey);
      emitted := Merge(data, StateFields(before), map["checkedItems" := EncodeFlags(checkedItems)]);
    }

    /** `handleItemExpand`: the item's expanded flag flips; the payload carries the new state. */
    method HandleItemExpand(itemId: string) returns (emitted: Data)
      modifies this`expandedItems
      ensures expandedItems == ToggleFlag(old(expandedItems), itemId)
      ensures emitted == Snapshot()
    {
      var before := State();
      expandedItems := ToggleFlag(expandedItems, itemId);
      EmitAfterChange(data, before, State(), ExpandedItemsKey);
      emitted := Merge(data, StateFields(before), map["expandedItems" := EncodeFlags(expandedItems)]);
    }

    /** `handleNotesChange`: the item's note is replaced; the payload carries the new state. */
    method HandleNotesChange(itemId: string, noteText: string) returns (emitted: Data)
      modifies this`notes
      ensures notes == Assign(old(notes), itemId, noteText)
      ensures emitted == Snapshot()
    {
      var before := State();
      notes := Assign(notes, itemId, noteText);
      EmitAfterChange(data, before, State(), NotesKey);
      emitted := Merge(data, StateFields(before), map["notes" := EncodeTexts(notes)]);
    }

    /** `handleThreatToggle`: the alert's expanded flag flips; the payload carries the new state. */
    method HandleThreatToggle(threatId: string) returns (emitted: Data)
      modifies this`expandedThreats
      ensures expandedThreats == ToggleFlag(old(expandedThreats), threatId)
      ensures emitted == Snapshot()
    {
      var before := State();
      expandedThreats := ToggleFlag(expandedThreats, threatId);
      EmitAfterChange(data, before, State(), ExpandedThreatsKey);
      emitted := Merge(data, StateFields(before), map["expandedThreats" := EncodeFlags(expandedThreats)]);
    }

    /** `handleTacticToggle`: the objective's expanded flag flips; the payload carries the new state. */
    method HandleTacticToggle(tacticId: string) returns (emitted: Data)
      modifies this`expandedTactics
      ensures expandedTactics == ToggleFlag(old(expandedTactics), tacticId)
      ensures emitted == Snapshot()
    {
      var before := State();
      expandedTactics := ToggleFlag(expandedTactics, tacticId);
      EmitAfterChange(data, before, State(), ExpandedTacticsKey);
      emitted := Merge(data, StateFields(before), map["expandedTactics" := EncodeFlags(expandedTactics)]);
    }

    /** `handleLifelineChange`: the lifeline's flag is set; the payload carries the new state. */
    method HandleLifelineChange(lifeline: string, checked: bool) returns (emitted: Data)
      modifies this`selectedLifelines
      ensures selectedLifelines == Assign(old(selectedLifelines), lifeline, checked)
      ensures emitted == Snapshot()
    {
      var before := State();
      selectedLifelines := Assign(selectedLifelines, lifeline, checked);
      EmitAfterChange(data, before, State(), SelectedLifelinesKey);
      emitted := Merge(data, StateFields(before), map["selectedLifelines" := EncodeFlags(selectedLifelines)]);
    }

    /** The eight text handlers: one text set; the payload carries the new state. */
    method HandleTextChange(field: TextField, value: string) returns (emitted: Data)
      modifies this`texts
      ensures texts == old(texts).With(field, value)
      ensures emitted == Snapshot()
    {
      var before := State();
      texts := texts.With(field, value);
      TextChangeElsewhere(before, field, value);
      EmitAfterChange(data, before, State(), TextEntry(field));
      emitted := Merge(data, StateFields(before), map[TextKey(field) := Str(value)]);
    }

    /** A `threat-update` event arrives: the alerts take the update; nothing is emitted. */
    method OnThreatUpdate(detail: Option<ThreatDetail>)
      modifies this`threats
      ensures threats == ThreatsAfterUpdate(old(threats), detail)
    {
      threats := ThreatsAfterUpdate(threats, detail);
    }

    // -------------------------------------------------------------------------
    // Actions and meetings: read from `data`, written through the payload only

    /** `handleAddAction`: nothing is emitted without a task name and a point of contact. */
    function HandleAddAction(draft: ActionDraft, id: string, now: Time): (r: Option<Data>)
      reads this
      ensures r.None? <==> draft.taskName == "" || draft.pointOfContact == ""
      ensures r.Some? ==> ActionsOf(r.value) == AddAction(ActionsOf(data), draft, id, now).value
      ensures r.Some? ==> |ActionsOf(r.value)| == |ActionsOf(data)| + 1
      ensures r.Some? ==> forall k :: KeyName(k) in r.value && r.value[KeyName(k)] == FieldValue(State(), k)
      ensures r.Some? ==> MeetingsOf(r.value) == MeetingsOf(data)
    {
      match AddAction(ActionsOf(data), draft, id, now)
      case None => None
      case Some(updated) =>
        var v := EncodeList(updated, EncodeAction);
        var r := Emit(map["actions" := v]);
        ListEntryEmitted(data, State(), "actions", v);
        ActionsOfStored(r, updated);
        ListOfSameEntry(r, data, "meetings", DecodeMeeting);
        Some(r)
    }

    /** `handleUpdateAction`: the payload's action list is the edited list of `data`. */
    function HandleUpdateAction(actionId: string, e: ActionEdit): (r: Data)
      reads this
      ensures ActionsOf(r) == UpdateAction(ActionsOf(data), actionId, e)
      ensures forall k :: KeyName(k) in r && r[KeyName(k)] == FieldValue(State(), k)
      ensures MeetingsOf(r) == MeetingsOf(data)
    {
      var updated := UpdateAction(ActionsOf(data), actionId, e);
      var v := EncodeList(updated, EncodeAction);
      var r := Emit(map["actions" := v]);
      ListEntryEmitted(data, State(), "actions", v);
      ActionsOfStored(r, updated);
      ListOfSameEntry(r, data, "meetings", DecodeMeeting);
      r
    }

    /** `handleDeleteAction`: the payload's action list is the list of `data` without that id. */
    function HandleDeleteAction(actionId: string): (r: Data)
      reads this
      ensures ActionsOf(r) == DeleteAction(ActionsOf(data), actionId)
      ensures forall k :: KeyName(k) in r && r[KeyName(k)] == FieldValue(State(), k)
      ensures MeetingsOf(r) == MeetingsOf(data)
    {
      var updated := DeleteAction(ActionsOf(data), actionId);
      var v := EncodeList(updated, EncodeAction);
      var r := Emit(map["actions" := v]);
      ListEntryEmitted(data, State(), "actions", v);
      ActionsOfStored(r, updated);
      ListOfSameEntry(r, data, "meetings", DecodeMeeting);
      r
    }

    /** `handleCreateMeeting`: the payload's meeting list is the list of `data` with the new meeting appended. */
    function HandleCreateMeeting(details: MeetingDetails, id: string, now: Time): (r: Data)
      reads this
      ensures MeetingsOf(r) == CreateMeeting(MeetingsOf(data), details, id, now)
      ensures forall k :: KeyName(k) in r && r[KeyName(k)] == FieldValue(State(), k)
      ensures ActionsOf(r) == ActionsOf(data)
    {
      var updated := CreateMeeting(MeetingsOf(data), details, id, now);
      var v := EncodeList(updated, EncodeMeeting);
      var r := Emit(map["meetings" := v]);
      ListEntryEmitted(data, State(), "meetings", v);
      MeetingsOfStored(r, updated);
      ListOfSameEntry(r, data, "actions", DecodeAction);
      r
    }

    /** `handleDeleteMeeting`: the payload's meeting list is the list of `data` without that id. */
    function HandleDeleteMeeting(meetingId: string): (r: Data)
      reads this
      ensures MeetingsOf(r) == DeleteMeeting(MeetingsOf(data), meetingId)
      ensures forall k :: KeyName(k) in r && r[KeyName(k)] == FieldValue(State(), k)
      ensures ActionsOf(r) == ActionsOf(data)
    {
      var updated := DeleteMeeting(MeetingsOf(data), meetingId);
      var v := EncodeList(updated, EncodeMeeting);
      var r := Emit(map["meetings" := v]);
      ListEntryEmitted(data, State(), "meetings", v);
      MeetingsOfStored(r, updated);
      ListOfSameEntry(r, data, "actions", DecodeAction);
      r
    }
  }
}
