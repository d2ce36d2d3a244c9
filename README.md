# Planning-P incident planning board — a Dafny model

The application takes an incident management team through the Planning P of
the Incident Command System. The planning cycle is divided into operational
periods. Each period has the eight phases of the catalog, from the IC/UC
objectives meeting to the operations briefing. Each phase keeps a free-form
payload that its editor fills in. The last phase leads to a completion
summary, and from there the team moves on to the next period. The period just
finished is archived and can still be viewed, read only.

The model covers:

- **Catalog** (`catalog.dfy`): the two phase catalogs, and how a fresh period
  is instantiated from the operational catalog.
- **Engine** (`engine.dfy`): the period/phase engine of `App`, as the class
  `PlanningApp`. Its fields are the application's state. Every handler
  preserves the invariant `Valid()` and states the whole new state:
  - the live period follows the catalog and is numbered from its history;
  - the history is well formed;
  - a viewed period is an archived one;
  - the summary appears only once the last phase is completed.
- **Stepper** (`stepper.dfy`): the phase stepper. It decides which buttons are
  enabled and which one is active, gives the caption under a button, and
  guards clicks.
- **Meeting editor** (`ucmeeting.dfy`): the editor used by the seven phases
  after the objectives meeting, as the class `UcMeetingEditor`. Its planning
  lists are in `workmatrix.dfy`: the work analysis matrix, the work
  assignments and their resources, the hazards, and the colour rules.
- **Objectives-meeting editor** (`objectives.dfy`): the class
  `ObjectivesEditor`. It holds the ten-item agenda check-list, the threat
  alerts and their external update event, and the completion gate.
- **Action tracker and meetings** (`actions.dfy`): shared by both editors.
  They live only in the payload.
- **Org chart** (`orgchart.dfy`): the depth walk that indents the
  organisation chart. It is a `while` loop, proved against a recursive
  definition.
- **Infrastructure**:
  - `payload.dfy`: a JSON-like payload value with typed readers and
    encoders, including list round trips.
  - `forms.dfy`: the `updateData` merge, map updates, and the eight incident
    text fields.
  - `jstext.dfy`: ECMAScript `String.prototype.trim` and `parseInt`/`toString`
    on integers.
  - `seqs.dfy`: `filter`, `map` restricted to matching elements, `findIndex`
    and `find`.
  - `wrappers.dfy`: `Option`.

Every editor handler that changes component state is a method. It states the
new field value, and it states that the payload it emits is `data + state`:
the incoming payload overlaid with the whole new state, exactly what
`updateData` writes. The action and meeting handlers change no state, so they
are functions. Their payload carries the new list, keeps the other list, and
keeps every state entry.

The model follows the code, including these less obvious behaviours:

- `setCurrentPhaseId` is passed to the stepper as is. Selecting a phase sets
  the current phase id unconditionally, even to an id outside the catalog.
  `HandlePhaseComplete` then covers the index -1 case: the current phase id moves to
  the first phase.
- The app stores the viewed past period itself, not its id.
- The completion summary appears when the last catalog phase is completed,
  even if earlier phases are not.
- `handlePreviousPhase` steps back from the live period's index, and the
  editor offers it based on the displayed period's index.
  `PlanningApp.DisplayedIndexAgrees` proves that the two indices coincide.
- The objectives editor never writes the threat alerts into its payload. When
  the phase is shown again, the editor starts from the default alert.
- A safety-plan field emptied by the user reloads as "No". A threat update
  without a `type` applies to alerts whose threat type is empty.
- In the meeting editor, `allItemsCompleted` is constantly true.

## Model

| member | source | states |
|---|---|---|
| Catalog.DefinitionIds | src/types/disaster.ts:18-82 | the id list of a catalog, one id per entry, in order |
| Catalog.PhaseIds | src/types/disaster.ts:1-8 | the id list of a period's phases, in order; it is the id list of the catalog entries the phases were made from |
| Catalog.OperationalCatalogShape | src/types/disaster.ts:33-82 | the operational catalog has exactly eight entries with pairwise distinct ids, the first being `ic-uc-objectives-meeting` |
| Catalog.DistinctCatalogPair | src/types/disaster.ts:33-82 | two catalog entries at different positions have different ids |
| Catalog.PlanningCatalogShape | src/types/disaster.ts:18-31 | the Planning-P seed catalog is exactly `initial-response`, `incident-briefing` |
| Catalog.Instantiate | src/App.tsx:25-29 | a fresh phase copies id, name, short name and description of its catalog entry, is not completed and has an empty payload |
| Catalog.FreshPhases | src/App.tsx:121-125 | a freshly instantiated period follows the catalog, carries the catalog's ids, nothing completed, every payload empty |
| Catalog.FollowsCatalogIds | src/types/disaster.ts:33-82 | phases that follow the catalog carry exactly the catalog's ids |
| Engine.PhaseIndex | src/App.tsx:68 | `findIndex`: -1 exactly when no phase has the id; otherwise the first phase with that id |
| Engine.FindPhase | src/App.tsx:67 | `find`: absent exactly when `findIndex` is -1, otherwise the phase at that index |
| Engine.PhaseIndexInCatalog | src/App.tsx:68 | in a period that follows the catalog, the index of the k-th catalog id is k |
| Engine.PhaseIndexAgrees | src/App.tsx:145-147 | two periods that follow the catalog give every id the same index (live and displayed index agree) |
| Engine.SetPhaseData | src/App.tsx:70-79 | only phases with the current phase id get the new payload; length, order and catalog shape are kept |
| Engine.MarkCompleted | src/App.tsx:81-98 | only phases with the current phase id are marked completed; length, order and catalog shape are kept |
| Engine.SetPhaseDataOnlyAt | src/App.tsx:70-79 | in a catalog period, setting the data of phase k changes that phase's payload and nothing else |
| Engine.SetPhaseDataRoundTrip | src/App.tsx:70-79 | the phase lookup reads back the stored payload unchanged |
| Engine.MarkCompletedOnlyAt | src/App.tsx:81-98 | completing phase k sets its flag, keeps its payload and changes no other phase |
| Engine.NextPeriodId | src/App.tsx:117 | `(parseInt(id) + 1).toString()`: parses back to the successor of the parsed id; "NaN" when the id does not parse |
| Engine.NextPeriodIdOfNumber | src/App.tsx:114-117 | an id that is the decimal of the number steps to the decimal of the number plus one |
| Engine.FindPeriod | src/App.tsx:136 | `find` over the history: absent exactly when no archived period has the id, otherwise a period with that id |
| Engine.FindPeriodInHistory | src/App.tsx:132-142 | in the history every id names one period, so the selector finds exactly the period it lists |
| Engine.HistoryNeverCurrent | src/App.tsx:133-135 | no archived period's id is the sentinel "current" |
| Engine.PlanningApp.constructor | src/App.tsx:21-35 | period "2" numbered 2 with fresh phases, empty history, nothing viewed, current phase the first one, no summary; the invariant holds |
| Engine.PlanningApp.CurrentPhaseIndex | src/App.tsx:68 | the current phase's position in the live period, or -1 |
| Engine.PlanningApp.DisplayedPeriod | src/App.tsx:145 | the viewed past period if any, otherwise the live period |
| Engine.PlanningApp.DisplayedPhase | src/App.tsx:146 | the phase of the displayed period with the current phase id, if any |
| Engine.PlanningApp.DisplayedPhaseIndex | src/App.tsx:147 | the current phase id's position in the displayed period, or -1 |
| Engine.PlanningApp.IsReadOnly | src/App.tsx:152 | a past period is being viewed |
| Engine.PlanningApp.PreviousOffered | src/App.tsx:147-158 | `onPrevious` is passed exactly when the displayed index is positive |
| Engine.PlanningApp.DisplayedIndexAgrees | src/App.tsx:145-160 | the displayed index gating `onPrevious` equals the live index `handlePreviousPhase` uses; a phase is displayed exactly when the current phase id is a catalog id |
| Engine.PlanningApp.StepperFullyOpen | src/App.tsx:498-503 | every stepper button of the displayed period is enabled, since its number is at least 2 |
| Engine.PlanningApp.SelectPhase | src/App.tsx:502 | the stepper's `onPhaseSelect` sets the current phase id as given and keeps the invariant |
| Engine.PlanningApp.HandlePhaseDataChange | src/App.tsx:70-79 | the live period's current phase gets the payload; the invariant is kept |
| Engine.PlanningApp.HandlePhaseComplete | src/App.tsx:81-98 | the current phase is completed; the current phase id moves to the phase after the current index, or at the end the summary is shown and the current phase id stays |
| Engine.PlanningApp.HandlePreviousPhase | src/App.tsx:100-105 | the current phase id moves one phase back; at the first phase nothing changes |
| Engine.PlanningApp.AdvanceOperationalPeriod | src/App.tsx:107-130 | the live period is archived with its end time; a fresh period numbered one higher becomes live, with the incremented id; current phase reset, summary hidden, live view restored |
| Engine.PlanningApp.HandleViewPastPeriod | src/App.tsx:132-142 | "current" clears the view; an archived id views that period and resets the current phase id; an unknown id changes nothing |
| Engine.PlanningApp.OnDataChange | src/App.tsx:153-160 | read-only mode makes the editor's data change a no-op; otherwise it is `handlePhaseDataChange` |
| Engine.PlanningApp.OnComplete | src/App.tsx:153-160 | read-only mode changes nothing; otherwise the current phase is completed and the next phase becomes current, or past the last phase the summary is shown |
| Engine.PlanningApp.OnPrevious | src/App.tsx:100-105 | offered only at a positive displayed index; then the live index drops by exactly one |
| Engine.PlanningApp.StepperClick | src/components/PlanningPStepper.tsx:59-60 | a click selects the button's phase exactly when the access guard allows it |
| Stepper.OpenFromPeriodOne | src/components/PlanningPStepper.tsx:39-43 | from period 1 on every button is enabled |
| Stepper.CanAccess | src/components/PlanningPStepper.tsx:39-43 | the access rule of a button: the period-0, operational and negative-period cases |
| Stepper.IsActive | src/components/PlanningPStepper.tsx:34 | a button is active when its phase id is the current phase id |
| Stepper.PeriodZeroRule | src/components/PlanningPStepper.tsx:39-43 | in period 0 the first two buttons are enabled and a later one exactly when its predecessor is completed |
| Stepper.NegativePeriodRule | src/components/PlanningPStepper.tsx:39-43 | below period 0 only the first button is free; a later one is enabled exactly when its predecessor is completed |
| Stepper.ClickTarget | src/components/PlanningPStepper.tsx:59-60 | `onPhaseSelect` is called exactly when access is granted, with the button's phase id |
| Stepper.AtMostOneActive | src/components/PlanningPStepper.tsx:34 | with distinct ids at most one button is active |
| Stepper.ActiveIsCatalogPosition | src/components/PlanningPStepper.tsx:34 | in an operational period the active button is exactly the current phase's |
| Stepper.DescriptiveText | src/components/PlanningPStepper.tsx:46-51 | a caption exists exactly for the two ICS-201 phases of period 0, "Create ICS-201" or "Use ICS-201" |
| Stepper.NoCaptionInOperationalCatalog | src/components/PlanningPStepper.tsx:46-51 | no phase of the operational catalog ever gets a caption |
| Seqs.Filter | src/components/phases/InitialUCMeetingPhase.tsx:415-418 | `filter`: every kept element is in the list and passes, each passing element keeps its multiplicity, failing ones are gone, and order is kept |
| Seqs.FilterKeepsAll | src/components/phases/InitialUCMeetingPhase.tsx:415-418 | a filter every element passes changes nothing |
| Seqs.FilterIdempotent | src/components/phases/InitialUCMeetingPhase.tsx:415-418 | filtering twice is filtering once |
| Seqs.MapWhere | src/components/phases/InitialUCMeetingPhase.tsx:408-413 | the `map(x => match ? f(x) : x)` idiom: length kept, matching elements rewritten, the others kept |
| Seqs.IndexWhere | src/App.tsx:68 | `findIndex`: -1 exactly when nothing matches, else the first match |
| Seqs.FindWhere | src/App.tsx:67 | `find`: the element at `findIndex`, absent exactly when it is -1 |
| JsText.OrElse | src/components/phases/InitialUCMeetingPhase.tsx:379-406 | `a \|\| b` on strings: a non-empty `a` wins, an empty one gives `b` |
| JsText.TrimStartDropsPrefix | src/components/phases/InitialUCMeetingPhase.tsx:2233 | the leading part of `trim` drops a white-space prefix and nothing more |
| JsText.TrimStart | src/components/phases/InitialUCMeetingPhase.tsx:2233 | the leading half of `trim`: white space removed from the start |
| JsText.TrimEnd | src/components/phases/InitialUCMeetingPhase.tsx:2233 | the trailing half of `trim`: white space removed from the end |
| JsText.Trim | src/components/phases/InitialUCMeetingPhase.tsx:2233 | `String.prototype.trim`: both ends trimmed; its properties are the lemmas below |
| JsText.TrimEndDropsSuffix | src/components/phases/InitialUCMeetingPhase.tsx:2233 | the trailing part of `trim` drops a white-space suffix and nothing more |
| JsText.TrimEndKeepsStart | src/components/phases/InitialUCMeetingPhase.tsx:2233 | trimming the end keeps a start that is not white space |
| JsText.TrimHasNoOuterSpace | src/components/phases/InitialUCMeetingPhase.tsx:2233 | a trimmed string neither starts nor ends with white space |
| JsText.TrimStartOfTrimmed | src/components/phases/InitialUCMeetingPhase.tsx:2233 | a string not starting with white space is kept by the leading trim |
| JsText.TrimEndOfTrimmed | src/components/phases/InitialUCMeetingPhase.tsx:2233 | a string not ending with white space is kept by the trailing trim |
| JsText.TrimKeepsTrimmed | src/components/phases/InitialUCMeetingPhase.tsx:2233 | a string without outer white space is its own trim |
| JsText.TrimIdempotent | src/components/phases/InitialUCMeetingPhase.tsx:2233-2237 | trimming twice is trimming once |
| JsText.TrimRemovesOnlyWhiteSpace | src/components/phases/InitialUCMeetingPhase.tsx:2233-2237 | `trim` returns a slice of its input, and only white space lies outside the slice |
| JsText.NatToString | src/App.tsx:117 | `toString` of a natural: a non-empty string of decimal digits |
| JsText.IntToString | src/App.tsx:117 | `toString` of an integer is never empty; `ParseIntOfIntToString` and `IntToStringInjective` pin down its meaning |
| JsText.ParseInt | src/App.tsx:117 | `parseInt(s)` of the empty string is NaN (none); `ParseIntOfIntToString` states what it reads back |
| JsText.DigitsValueOfNatToString | src/App.tsx:117 | the digits of `toString(n)` have the value n |
| JsText.ParseDigitsOfDigits | src/App.tsx:117 | a run of digits parses to its value |
| JsText.NoHexPrefixInDecimal | src/App.tsx:117 | a decimal rendering never looks like a "0x" prefix |
| JsText.ParseMagnitudeOfNatToString | src/App.tsx:117 | the magnitude parser reads `toString(n)` back as n |
| JsText.ParseIntOfIntToString | src/App.tsx:117 | `parseInt(n.toString()) == n` for every integer |
| JsText.IntToStringInjective | src/App.tsx:117 | distinct integers have distinct decimal renderings |
| Payload.GetStr | src/components/phases/InitialUCMeetingPhase.tsx:118-125 | a string entry is read exactly when the key holds a string |
| Payload.GetBool | src/components/phases/InitialUCMeetingPhase.tsx:102-104 | a boolean entry is read exactly when the key holds a boolean |
| Payload.GetNum | src/components/phases/InitialUCMeetingPhase.tsx:83-89 | a number entry is read exactly when the key holds a number |
| Payload.GetDate | src/components/phases/InitialUCMeetingPhase.tsx:29-38 | a date entry is read exactly when the key holds a date |
| Payload.GetInt | src/components/phases/InitialUCMeetingPhase.tsx:83-89 | an integral number entry is read back as that integer, and nothing else is read as an integer |
| Payload.EncodeList | src/components/phases/InitialUCMeetingPhase.tsx:276-299 | an array holding each element's encoding, in order |
| Payload.DecodeItems | src/components/phases/InitialUCMeetingPhase.tsx:131-132 | when every element decodes the list is read element by element, in order; when one does not, the whole list is rejected |
| Payload.DecodeItemsOfEncoded | src/components/phases/InitialUCMeetingPhase.tsx:131-132 | a list whose elements round-trip decodes back to itself |
| Payload.DecodeListOfEncoded | src/components/phases/InitialUCMeetingPhase.tsx:131-132 | the same round trip for a list value |
| Payload.DecodeList | src/components/phases/InitialUCMeetingPhase.tsx:131-132 | an array value decoded element by element; any other value is rejected |
| Payload.ListOf | src/components/phases/InitialUCMeetingPhase.tsx:131-135 | `data.key \|\| []`: the decoded list under the key, or the empty list when it is missing or does not decode |
| Payload.ListOfStored | src/components/phases/InitialUCMeetingPhase.tsx:131-135 | `data.key \|\| []` reads back a list written under that key |
| Payload.ListOfSameEntry | src/components/phases/InitialUCMeetingPhase.tsx:131-132 | two payloads that agree on an entry read the same list from it |
| Payload.EncodeFlags | src/components/phases/InitialUCMeetingPhase.tsx:102-103 | a flag map as an object with the same keys and boolean values |
| Payload.DecodeFlagsOfEncoded | src/components/phases/InitialUCMeetingPhase.tsx:102-103 | a flag map round-trips through the payload |
| Payload.EncodeTexts | src/components/phases/InitialUCMeetingPhase.tsx:104 | a note map as an object with the same keys and string values |
| Payload.DecodeTextsOfEncoded | src/components/phases/InitialUCMeetingPhase.tsx:104 | a note map round-trips through the payload |
| Forms.Merge | src/components/phases/InitialUCMeetingPhase.tsx:276-299 | `{...data, ...state, ...updates}`: every key of the three; updates win, then the state, then the incoming payload |
| Forms.MergeOfChangedField | src/components/phases/InitialUCMeetingPhase.tsx:276-299 | an update of one state key gives the incoming payload overlaid with the updated state |
| Forms.SpreadLookup | src/components/phases/InitialUCMeetingPhase.tsx:279-297 | a spread entry with a name of its own is found under that name with its value |
| Forms.Spread | src/components/phases/InitialUCMeetingPhase.tsx:279-297 | the object `{...state}`: one entry per state field under its name |
| Forms.SpreadOmits | src/components/phases/InitialUCMeetingPhase.tsx:279-297 | a name no entry has is absent from the spread object |
| Forms.SpreadAgrees | src/components/phases/InitialUCMeetingPhase.tsx:279-297 | entries with equal values spread to equal objects |
| Forms.SpreadAfter | src/components/phases/InitialUCMeetingPhase.tsx:279-297 | changing one entry changes the spread object in that key only |
| Forms.MergeOfExtraKey | src/components/phases/InitialUCMeetingPhase.tsx:301-310 | an update under a key outside the state is the payload plus state plus that key |
| Forms.Assign | src/components/phases/InitialUCMeetingPhase.tsx:258-262 | `{...m, [k]: v}`: k holds v, no other key changes |
| Forms.ToggleFlag | src/components/phases/InitialUCMeetingPhase.tsx:264-268 | `{...m, [k]: !m[k]}`: k's flag is flipped as read, no other key changes |
| Forms.Flag | src/components/phases/InitialUCMeetingPhase.tsx:264-268 | `m[k]` read as a boolean, a missing key reading as false |
| Forms.ToggleFlagTwice | src/components/phases/InitialUCMeetingPhase.tsx:264-268 | flipping twice restores every flag as read, and the map itself when the key was present |
| Forms.FlagsOf | src/components/phases/InitialUCMeetingPhase.tsx:102-103 | `data.key \|\| {}` for flags: the stored map, or the empty map if the key is missing |
| Forms.NotesOf | src/components/phases/InitialUCMeetingPhase.tsx:104 | `data.key \|\| {}` for notes: the stored map, or the empty map if the key is missing |
| Forms.FlagsOfStored | src/components/phases/InitialUCMeetingPhase.tsx:102-103 | a stored flag map is read back unchanged |
| Forms.NotesOfStored | src/components/phases/InitialUCMeetingPhase.tsx:104 | a stored note map is read back unchanged |
| Forms.TextKeyInjective | src/components/phases/InitialUCMeetingPhase.tsx:118-125 | the eight text fields have eight different payload keys |
| Forms.IncidentTexts.With | src/components/phases/InitialUCMeetingPhase.tsx:427-465 | a text handler sets its field and keeps the other seven |
| Forms.TextsEqual | src/components/phases/InitialUCMeetingPhase.tsx:118-125 | text records agreeing on every field are equal |
| Forms.TextOf | src/components/phases/InitialUCMeetingPhase.tsx:118-125 | `data.key \|\| default`: a non-empty stored string, else the default, which is "No" for the safety-plan field and "" for every other text |
| Forms.TextsOf | src/components/phases/InitialUCMeetingPhase.tsx:118-125 | every initial text field is read as `TextOf` |
| Forms.TextsOfStored | src/components/phases/InitialUCMeetingPhase.tsx:118-125 | stored texts read back unchanged exactly when the safety-plan field is non-empty; an emptied safety-plan field reads back as "No" |
| ActionTracker.AddAction | src/components/phases/InitialUCMeetingPhase.tsx:379-406 | rejected exactly without task name or point of contact; otherwise one action appended with the id, the date, and "No"/"Not Started" for an empty briefed flag/status |
| ActionTracker.ApplyActionEditOnlyField | src/components/phases/InitialUCMeetingPhase.tsx:408-413 | an edit sets its field to its value and keeps every other field |
| ActionTracker.ApplyActionEdit | src/components/phases/InitialUCMeetingPhase.tsx:408-413 | `{...action, [field]: value}` for one action |
| ActionTracker.UpdateAction | src/components/phases/InitialUCMeetingPhase.tsx:408-413 | actions with the id get the edit, the others stay; length and order kept |
| ActionTracker.DeleteAction | src/components/phases/InitialUCMeetingPhase.tsx:415-418 | exactly the actions with the id are removed; the rest keep order and multiplicity |
| ActionTracker.DeleteAbsentAction | src/components/phases/InitialUCMeetingPhase.tsx:415-418 | deleting an id nobody has changes nothing |
| ActionTracker.DeleteActionIdempotent | src/components/phases/InitialUCMeetingPhase.tsx:415-418 | deleting twice is deleting once |
| ActionTracker.CreateMeeting | src/components/phases/InitialUCMeetingPhase.tsx:301-310 | the new meeting is appended with its id, creation date and every field of the form; the old ones kept |
| ActionTracker.DeleteMeeting | src/components/phases/InitialUCMeetingPhase.tsx:312-315 | exactly the meetings with the id are removed; the rest keep their order and multiplicity |
| ActionTracker.DecodeActionOfEncoded | src/components/phases/InitialUCMeetingPhase.tsx:29-38 | an action round-trips through the payload |
| ActionTracker.DecodeMeetingOfEncoded | src/components/phases/InitialUCMeetingPhase.tsx:14-27 | a meeting round-trips through the payload |
| ActionTracker.MeetingFieldsFirst | src/components/phases/InitialUCMeetingPhase.tsx:14-27 | the first entries of an encoded meeting hold its fields |
| ActionTracker.MeetingFieldsRest | src/components/phases/InitialUCMeetingPhase.tsx:14-27 | the remaining entries of an encoded meeting hold its fields |
| ActionTracker.ActionsOfStored | src/components/phases/InitialUCMeetingPhase.tsx:132 | a stored action list is read back by `data.actions \|\| []` |
| ActionTracker.MeetingsOfStored | src/components/phases/InitialUCMeetingPhase.tsx:131 | a stored meeting list is read back by `data.meetings \|\| []` |
| WorkMatrix.AddObjective | src/components/phases/InitialUCMeetingPhase.tsx:468-485 | rejected exactly without a name; otherwise one expanded objective without strategies appended |
| WorkMatrix.DeleteObjective | src/components/phases/InitialUCMeetingPhase.tsx:487-491 | exactly the objectives with the id removed; the rest keep their order and multiplicity |
| WorkMatrix.ToggleObjective | src/components/phases/InitialUCMeetingPhase.tsx:493-499 | `expanded` flips on the objectives with the id only |
| WorkMatrix.ToggleObjectiveTwice | src/components/phases/InitialUCMeetingPhase.tsx:493-499 | toggling twice restores the list |
| WorkMatrix.AppendStrategy | src/components/phases/InitialUCMeetingPhase.tsx:512-516 | the strategy is appended to the objectives with the id, the others kept |
| WorkMatrix.AddStrategy | src/components/phases/InitialUCMeetingPhase.tsx:501-524 | rejected exactly without a name or a selected objective; otherwise an expanded strategy without tactics joins the selected objective |
| WorkMatrix.DeleteStrategy | src/components/phases/InitialUCMeetingPhase.tsx:526-534 | the strategy leaves the named objective only; the other strategies keep their order and multiplicity |
| WorkMatrix.ToggleStrategyIn | src/components/phases/InitialUCMeetingPhase.tsx:536-549 | `expanded` flips on the strategies with the id only |
| WorkMatrix.ToggleStrategy | src/components/phases/InitialUCMeetingPhase.tsx:536-549 | the strategy toggles inside the named objective only |
| WorkMatrix.ToggleStrategyTwice | src/components/phases/InitialUCMeetingPhase.tsx:536-549 | toggling twice restores the list |
| WorkMatrix.AppendTacticIn | src/components/phases/InitialUCMeetingPhase.tsx:562-573 | the tactic is appended to the strategies with the id, the others kept |
| WorkMatrix.AddTactic | src/components/phases/InitialUCMeetingPhase.tsx:551-582 | rejected exactly without a name, objective or strategy; otherwise the tactic joins the selected strategy of the selected objective only |
| WorkMatrix.AddTacticPlacement | src/components/phases/InitialUCMeetingPhase.tsx:551-582 | an accepted tactic lands at the end of the selected strategy's tactics and nowhere else |
| WorkMatrix.DeleteTacticIn | src/components/phases/InitialUCMeetingPhase.tsx:584-599 | the tactic leaves the strategies with the id only; the other tactics keep their order and multiplicity |
| WorkMatrix.DeleteTactic | src/components/phases/InitialUCMeetingPhase.tsx:584-599 | the tactic leaves the named strategy of the named objective only; the other tactics keep their order and multiplicity |
| WorkMatrix.PriorityColor | src/components/phases/InitialUCMeetingPhase.tsx:601-608 | High, Medium and Low each have their own colour and are the only priorities that get it; every other priority, and only those, is muted |
| WorkMatrix.AddWorkAssignment | src/components/phases/InitialUCMeetingPhase.tsx:611-639 | rejected exactly without a name; otherwise the drafted assignment, with its resources, is appended |
| WorkMatrix.UpdateWorkAssignment | src/components/phases/InitialUCMeetingPhase.tsx:641-647 | assignments with the id get the edit, the others stay |
| WorkMatrix.ApplyAssignmentEdit | src/components/phases/InitialUCMeetingPhase.tsx:641-647 | `{...assignment, [field]: value}` for one assignment |
| WorkMatrix.DeleteWorkAssignment | src/components/phases/InitialUCMeetingPhase.tsx:649-653 | exactly the assignments with the id removed; the rest keep their order and multiplicity |
| WorkMatrix.AddResourceToAssignment | src/components/phases/InitialUCMeetingPhase.tsx:656-664 | the resource is appended to the assignments with the id only |
| WorkMatrix.UpdateResourceIn | src/components/phases/InitialUCMeetingPhase.tsx:666-679 | resources with the id get the edit, the others stay |
| WorkMatrix.ApplyResourceEdit | src/components/phases/InitialUCMeetingPhase.tsx:666-679 | `{...resource, [field]: value}` for one resource |
| WorkMatrix.UpdateResource | src/components/phases/InitialUCMeetingPhase.tsx:666-679 | the resource is edited inside the named assignment only |
| WorkMatrix.DeleteResource | src/components/phases/InitialUCMeetingPhase.tsx:681-689 | the resource leaves the named assignment only; the other resources keep their order and multiplicity |
| WorkMatrix.AddResourceToDraft | src/components/phases/InitialUCMeetingPhase.tsx:691-713 | rejected exactly without a name; otherwise the resource joins the draft's resources |
| WorkMatrix.RemoveResourceFromDraft | src/components/phases/InitialUCMeetingPhase.tsx:715-720 | exactly the draft resources with the id are removed, the rest keep their order and multiplicity; the rest of the draft is kept |
| WorkMatrix.AddHazard | src/components/phases/InitialUCMeetingPhase.tsx:723-745 | rejected exactly without a name; otherwise the drafted hazard is appended |
| WorkMatrix.UpdateHazard | src/components/phases/InitialUCMeetingPhase.tsx:747-753 | hazards with the id get the edit, the others stay |
| WorkMatrix.ApplyHazardEdit | src/components/phases/InitialUCMeetingPhase.tsx:747-753 | `{...hazard, [field]: value}` for one hazard |
| WorkMatrix.DeleteHazard | src/components/phases/InitialUCMeetingPhase.tsx:755-759 | exactly the hazards with the id removed; the rest keep their order and multiplicity |
| WorkMatrix.GarScoreColor | src/components/phases/InitialUCMeetingPhase.tsx:761-766 | 1-3 green, 4-6 yellow, 7-10 destructive, each if and only if; every other score muted |
| WorkMatrix.DecodeTacticOfEncoded | src/components/phases/InitialUCMeetingPhase.tsx:40-46 | a tactic round-trips through the payload |
| WorkMatrix.DecodeStrategyOfEncoded | src/components/phases/InitialUCMeetingPhase.tsx:48-54 | a strategy with its tactics round-trips |
| WorkMatrix.DecodeObjectiveOfEncoded | src/components/phases/InitialUCMeetingPhase.tsx:56-62 | an objective with its strategies round-trips |
| WorkMatrix.DecodeResourceOfEncoded | src/components/phases/InitialUCMeetingPhase.tsx:64-70 | a resource round-trips |
| WorkMatrix.DecodeAssignmentOfEncoded | src/components/phases/InitialUCMeetingPhase.tsx:72-81 | a work assignment with its resources round-trips |
| WorkMatrix.AssignmentFields | src/components/phases/InitialUCMeetingPhase.tsx:72-81 | the entries of an encoded assignment hold its fields |
| WorkMatrix.DecodeHazardOfEncoded | src/components/phases/InitialUCMeetingPhase.tsx:83-89 | a hazard, with its integral GAR score, round-trips |
| WorkMatrix.DecodeRequestOfEncoded | src/components/phases/InitialUCMeetingPhase.tsx:126 | a resource request round-trips |
| UcMeeting.StateKeyListed | src/components/phases/InitialUCMeetingPhase.tsx:279-297 | every state entry is written by `updateData` |
| UcMeeting.OtherNamesDistinct | src/components/phases/InitialUCMeetingPhase.tsx:279-297 | the non-text state keys are pairwise distinct |
| UcMeeting.TextNameApart | src/components/phases/InitialUCMeetingPhase.tsx:279-297 | no text key coincides with another state key |
| UcMeeting.KeyNameDistinct | src/components/phases/InitialUCMeetingPhase.tsx:279-297 | different state entries are stored under different keys |
| UcMeeting.ListKeysOutsideState | src/components/phases/InitialUCMeetingPhase.tsx:279-297 | `actions` and `meetings` are not state keys |
| UcMeeting.ListKeysNotInState | src/components/phases/InitialUCMeetingPhase.tsx:279-297 | the state part of a payload never overwrites the action or meeting list |
| UcMeeting.NamesApart | src/components/phases/InitialUCMeetingPhase.tsx:279-297 | each state key is held by one entry of the spread |
| UcMeeting.StateFields | src/components/phases/InitialUCMeetingPhase.tsx:279-297 | the state part of the payload holds every entry's value under its key |
| UcMeeting.StateFieldsLookup | src/components/phases/InitialUCMeetingPhase.tsx:279-297 | the spread of the state finds every entry under its key |
| UcMeeting.InitialStateOfStored | src/components/phases/InitialUCMeetingPhase.tsx:102-165 | a payload carrying a state remounts in exactly that state, unless the safety-plan field was emptied |
| UcMeeting.InitialState | src/components/phases/InitialUCMeetingPhase.tsx:102-165 | the state the editor mounts with: every entry from the payload or its default |
| UcMeeting.TextsOfStoredState | src/components/phases/InitialUCMeetingPhase.tsx:118-125 | stored texts read back, the emptied safety-plan field as "No" |
| UcMeeting.MapsOfStored | src/components/phases/InitialUCMeetingPhase.tsx:102-117 | the four stored maps read back unchanged |
| UcMeeting.ListsOfStored | src/components/phases/InitialUCMeetingPhase.tsx:126-165 | the four stored lists read back unchanged |
| UcMeeting.StateFieldsAfter | src/components/phases/InitialUCMeetingPhase.tsx:276-299 | one changed entry changes the state part of the payload in that key only |
| UcMeeting.TextChangeElsewhere | src/components/phases/InitialUCMeetingPhase.tsx:427-465 | setting one text leaves every other state entry |
| UcMeeting.EmitAfterChange | src/components/phases/InitialUCMeetingPhase.tsx:276-299 | a handler's `updateData` with its new value emits the incoming payload overlaid with the new state |
| UcMeeting.ListEntryEmitted | src/components/phases/InitialUCMeetingPhase.tsx:301-315 | a list update emits that list, keeps the other list of the payload, and keeps every state entry |
| UcMeeting.UcMeetingEditor.Emit | src/components/phases/InitialUCMeetingPhase.tsx:276-299 | `updateData(updates)`: updates win, then the state, then the incoming payload |
| UcMeeting.UcMeetingEditor.constructor | src/components/phases/InitialUCMeetingPhase.tsx:102-165 | the editor starts from the payload's entries or their defaults |
| UcMeeting.UcMeetingEditor.ReceiveData | src/App.tsx:153-158 | a re-render replaces the `data` prop and keeps the component state |
| UcMeeting.UcMeetingEditor.SnapshotRemounts | src/components/phases/InitialUCMeetingPhase.tsx:102-165 | a payload the editor emitted restores its state on remount, unless the safety-plan field is empty |
| UcMeeting.UcMeetingEditor.AllItemsCompleted | src/components/phases/InitialUCMeetingPhase.tsx:769 | the completion gate of the meeting editor: constantly true |
| UcMeeting.UcMeetingEditor.HandleItemCheck | src/components/phases/InitialUCMeetingPhase.tsx:258-262 | the item's flag is set; the emitted payload is the incoming one overlaid with the new state |
| UcMeeting.UcMeetingEditor.HandleItemExpand | src/components/phases/InitialUCMeetingPhase.tsx:264-268 | the item's expanded flag flips; the new state is emitted |
| UcMeeting.UcMeetingEditor.HandleNotesChange | src/components/phases/InitialUCMeetingPhase.tsx:270-274 | the item's note is replaced; the new state is emitted |
| UcMeeting.UcMeetingEditor.HandleLifelineChange | src/components/phases/InitialUCMeetingPhase.tsx:421-425 | the lifeline's flag is set; the new state is emitted |
| UcMeeting.UcMeetingEditor.HandleTextChange | src/components/phases/InitialUCMeetingPhase.tsx:427-465 | one of the eight texts is set; the new state is emitted |
| UcMeeting.UcMeetingEditor.SetWorkObjectives | src/components/phases/InitialUCMeetingPhase.tsx:479-481 | the objectives are replaced and the new state is emitted |
| UcMeeting.UcMeetingEditor.HandleAddObjective | src/components/phases/InitialUCMeetingPhase.tsx:468-485 | nothing happens without a name; otherwise the objective is added and the new state emitted |
| UcMeeting.UcMeetingEditor.HandleDeleteObjective | src/components/phases/InitialUCMeetingPhase.tsx:487-491 | the objective is removed and the new state emitted |
| UcMeeting.UcMeetingEditor.HandleToggleObjective | src/components/phases/InitialUCMeetingPhase.tsx:493-499 | the objective toggles and the new state is emitted |
| UcMeeting.UcMeetingEditor.HandleAddStrategy | src/components/phases/InitialUCMeetingPhase.tsx:501-524 | nothing happens without a name or objective; otherwise the strategy is added and the new state emitted |
| UcMeeting.UcMeetingEditor.HandleDeleteStrategy | src/components/phases/InitialUCMeetingPhase.tsx:526-534 | the strategy is removed and the new state emitted |
| UcMeeting.UcMeetingEditor.HandleToggleStrategy | src/components/phases/InitialUCMeetingPhase.tsx:536-549 | the strategy toggles and the new state is emitted |
| UcMeeting.UcMeetingEditor.HandleAddTactic | src/components/phases/InitialUCMeetingPhase.tsx:551-582 | nothing happens without a name, objective or strategy; otherwise the tactic is added and the new state emitted |
| UcMeeting.UcMeetingEditor.HandleDeleteTactic | src/components/phases/InitialUCMeetingPhase.tsx:584-599 | the tactic is removed and the new state emitted |
| UcMeeting.UcMeetingEditor.SetWorkAssignments | src/components/phases/InitialUCMeetingPhase.tsx:626-627 | the assignments are replaced and the new state is emitted |
| UcMeeting.UcMeetingEditor.HandleAddWorkAssignment | src/components/phases/InitialUCMeetingPhase.tsx:611-639 | nothing happens without a name; otherwise the assignment is added and the new state emitted |
| UcMeeting.UcMeetingEditor.HandleUpdateWorkAssignment | src/components/phases/InitialUCMeetingPhase.tsx:641-647 | the assignment is edited and the new state emitted |
| UcMeeting.UcMeetingEditor.HandleDeleteWorkAssignment | src/components/phases/InitialUCMeetingPhase.tsx:649-653 | the assignment is removed and the new state emitted |
| UcMeeting.UcMeetingEditor.HandleAddResourceToAssignment | src/components/phases/InitialUCMeetingPhase.tsx:656-664 | the resource is added and the new state emitted |
| UcMeeting.UcMeetingEditor.HandleUpdateResource | src/components/phases/InitialUCMeetingPhase.tsx:666-679 | the resource is edited and the new state emitted |
| UcMeeting.UcMeetingEditor.HandleDeleteResource | src/components/phases/InitialUCMeetingPhase.tsx:681-689 | the resource is removed and the new state emitted |
| UcMeeting.UcMeetingEditor.SetHazards | src/components/phases/InitialUCMeetingPhase.tsx:733-735 | the hazards are replaced and the new state is emitted |
| UcMeeting.UcMeetingEditor.HandleAddHazard | src/components/phases/InitialUCMeetingPhase.tsx:723-745 | nothing happens without a name; otherwise the hazard is added and the new state emitted |
| UcMeeting.UcMeetingEditor.HandleUpdateHazard | src/components/phases/InitialUCMeetingPhase.tsx:747-753 | the hazard is edited and the new state emitted |
| UcMeeting.UcMeetingEditor.HandleDeleteHazard | src/components/phases/InitialUCMeetingPhase.tsx:755-759 | the hazard is removed and the new state emitted |
| UcMeeting.UcMeetingEditor.HandleAddAction | src/components/phases/InitialUCMeetingPhase.tsx:379-406 | nothing is emitted without task name and contact; otherwise the payload's action list is the added list, the meetings and every state entry kept |
| UcMeeting.UcMeetingEditor.HandleUpdateAction | src/components/phases/InitialUCMeetingPhase.tsx:408-413 | the payload's action list is the edited list; meetings and state kept |
| UcMeeting.UcMeetingEditor.HandleDeleteAction | src/components/phases/InitialUCMeetingPhase.tsx:415-418 | the payload's action list lacks the id; meetings and state kept |
| UcMeeting.UcMeetingEditor.HandleCreateMeeting | src/components/phases/InitialUCMeetingPhase.tsx:301-310 | the payload's meeting list has the new meeting appended; actions and state kept |
| UcMeeting.UcMeetingEditor.HandleDeleteMeeting | src/components/phases/InitialUCMeetingPhase.tsx:312-315 | the payload's meeting list lacks the id; actions and state kept |
| IcUcObjectives.DefaultThreats | src/components/phases/ICUCObjectivesPhase.tsx:116-128 | without stored alerts there is one alert, id "1", Critical, Active, created now |
| IcUcObjectives.DecodeThreatOfEncoded | src/components/phases/ICUCObjectivesPhase.tsx:41-51 | an alert round-trips through the payload |
| IcUcObjectives.ThreatFieldsFirst | src/components/phases/ICUCObjectivesPhase.tsx:41-51 | the first entries of an encoded alert hold its fields |
| IcUcObjectives.ThreatFieldsRest | src/components/phases/ICUCObjectivesPhase.tsx:41-51 | the remaining entries of an encoded alert hold its fields |
| IcUcObjectives.ThreatsOfStored | src/components/phases/ICUCObjectivesPhase.tsx:116-128 | a stored alert list is read back; without one, the default alert |
| IcUcObjectives.ThreatsOf | src/components/phases/ICUCObjectivesPhase.tsx:116-128 | `data.threats \|\| [default alert]`: the stored alert list, or the default alert when the entry is missing or malformed |
| IcUcObjectives.ThreatsAfterUpdate | src/components/phases/ICUCObjectivesPhase.tsx:487-499 | no detail changes nothing; otherwise alerts of the event's type (absent type meaning "") take its severity when given, the others stay |
| IcUcObjectives.TargetType | src/components/phases/ICUCObjectivesPhase.tsx:492 | `detail.type \|\| ''`: the threat type an update applies to |
| IcUcObjectives.ThreatUpdateOnlySeverity | src/components/phases/ICUCObjectivesPhase.tsx:490-494 | an update changes at most the severity of an alert |
| IcUcObjectives.ThreatUpdateIdempotent | src/components/phases/ICUCObjectivesPhase.tsx:487-499 | receiving the same event twice is receiving it once |
| IcUcObjectives.SeverityColor | src/components/phases/ICUCObjectivesPhase.tsx:407-424 | each listed severity has its badge colour; gray exactly for the unlisted ones |
| IcUcObjectives.EveryCheckedIff | src/components/phases/ICUCObjectivesPhase.tsx:553 | `every` holds exactly when no listed item is unchecked |
| IcUcObjectives.AllItemsCompletedIff | src/components/phases/ICUCObjectivesPhase.tsx:198-264 | the phase is completable exactly when all ten agenda ids are checked |
| IcUcObjectives.AllItemsCompleted | src/components/phases/ICUCObjectivesPhase.tsx:553 | `agendaItems.every(item => checkedItems[item.id])` |
| IcUcObjectives.CheckKeepsCompletion | src/components/phases/ICUCObjectivesPhase.tsx:266-270 | unchecking an agenda item blocks completion; checking one keeps a completable phase completable |
| IcUcObjectives.StateKeyListed | src/components/phases/ICUCObjectivesPhase.tsx:284-305 | every state entry is written by `updateData` |
| IcUcObjectives.MapNamesDistinct | src/components/phases/ICUCObjectivesPhase.tsx:284-305 | the six map keys are pairwise distinct |
| IcUcObjectives.TextNameApart | src/components/phases/ICUCObjectivesPhase.tsx:284-305 | no text key coincides with a map key |
| IcUcObjectives.KeyNameDistinct | src/components/phases/ICUCObjectivesPhase.tsx:284-305 | different state entries are stored under different keys |
| IcUcObjectives.NamesApart | src/components/phases/ICUCObjectivesPhase.tsx:284-305 | each state key is held by one entry of the spread |
| IcUcObjectives.OtherKeysOutsideState | src/components/phases/ICUCObjectivesPhase.tsx:284-305 | `threats`, `actions` and `meetings` are not state keys |
| IcUcObjectives.StateFields | src/components/phases/ICUCObjectivesPhase.tsx:284-305 | the state part of the payload holds every entry's value under its key |
| IcUcObjectives.StateFieldsLookup | src/components/phases/ICUCObjectivesPhase.tsx:284-305 | the spread of the state finds every entry under its key |
| IcUcObjectives.OtherKeysNotInState | src/components/phases/ICUCObjectivesPhase.tsx:284-305 | the state part of a payload never overwrites alerts, actions or meetings |
| IcUcObjectives.InitialStateOfStored | src/components/phases/ICUCObjectivesPhase.tsx:81-109 | a payload carrying a state remounts in exactly that state, unless the safety-plan field was emptied |
| IcUcObjectives.InitialState | src/components/phases/ICUCObjectivesPhase.tsx:81-109 | the state the editor mounts with: every entry from the payload or its default |
| IcUcObjectives.EmitAfterChange | src/components/phases/ICUCObjectivesPhase.tsx:284-305 | a handler's `updateData` with its new value emits the incoming payload overlaid with the new state |
| IcUcObjectives.TextChangeElsewhere | src/components/phases/ICUCObjectivesPhase.tsx:313-351 | setting one text leaves every other state entry |
| IcUcObjectives.ListEntryEmitted | src/components/phases/ICUCObjectivesPhase.tsx:353-367 | a list update emits that list, keeps the other list of the payload, and keeps every state entry |
| IcUcObjectives.ObjectivesEditor.Emit | src/components/phases/ICUCObjectivesPhase.tsx:284-305 | `updateData(updates)`: updates win, then the state, then the incoming payload |
| IcUcObjectives.ObjectivesEditor.constructor | src/components/phases/ICUCObjectivesPhase.tsx:81-128 | the editor starts from the payload's entries or their defaults, the alerts from the payload or the default |
| IcUcObjectives.ObjectivesEditor.ReceiveData | src/App.tsx:153-158 | a re-render replaces the `data` prop and keeps the component state |
| IcUcObjectives.ObjectivesEditor.SnapshotRemounts | src/components/phases/ICUCObjectivesPhase.tsx:81-109 | a payload the editor emitted restores its state on remount, unless the safety-plan field is empty |
| IcUcObjectives.ObjectivesEditor.CanComplete | src/components/phases/ICUCObjectivesPhase.tsx:553 | the completion button is enabled exactly when every agenda item is checked |
| IcUcObjectives.ObjectivesEditor.ThreatsNotEmitted | src/components/phases/ICUCObjectivesPhase.tsx:284-305 | an emitted payload carries the same alerts as the incoming one: edited alerts are never persisted |
| IcUcObjectives.ObjectivesEditor.HandleItemCheck | src/components/phases/ICUCObjectivesPhase.tsx:266-270 | the item's flag is set; the emitted payload is the incoming one overlaid with the new state |
| IcUcObjectives.ObjectivesEditor.HandleItemExpand | src/components/phases/ICUCObjectivesPhase.tsx:272-276 | the item's expanded flag flips; the new state is emitted |
| IcUcObjectives.ObjectivesEditor.HandleNotesChange | src/components/phases/ICUCObjectivesPhase.tsx:278-282 | the item's note is replaced; the new state is emitted |
| IcUcObjectives.ObjectivesEditor.HandleThreatToggle | src/components/phases/ICUCObjectivesPhase.tsx:541-545 | the alert's expanded flag flips; the new state is emitted |
| IcUcObjectives.ObjectivesEditor.HandleTacticToggle | src/components/phases/ICUCObjectivesPhase.tsx:547-551 | the tactic's expanded flag flips; the new state is emitted |
| IcUcObjectives.ObjectivesEditor.HandleLifelineChange | src/components/phases/ICUCObjectivesPhase.tsx:307-311 | the lifeline's flag is set; the new state is emitted |
| IcUcObjectives.ObjectivesEditor.HandleTextChange | src/components/phases/ICUCObjectivesPhase.tsx:313-351 | one of the eight texts is set; the new state is emitted |
| IcUcObjectives.ObjectivesEditor.OnThreatUpdate | src/components/phases/ICUCObjectivesPhase.tsx:487-499 | the alerts take the event's update; nothing is emitted |
| IcUcObjectives.ObjectivesEditor.HandleAddAction | src/components/phases/ICUCObjectivesPhase.tsx:501-527 | nothing is emitted without task name and contact; otherwise the action list grows by the new action, meetings and state kept |
| IcUcObjectives.ObjectivesEditor.HandleUpdateAction | src/components/phases/ICUCObjectivesPhase.tsx:529-534 | the payload's action list is the edited list; meetings and state kept |
| IcUcObjectives.ObjectivesEditor.HandleDeleteAction | src/components/phases/ICUCObjectivesPhase.tsx:536-539 | the payload's action list lacks the id; meetings and state kept |
| IcUcObjectives.ObjectivesEditor.HandleCreateMeeting | src/components/phases/ICUCObjectivesPhase.tsx:353-362 | the payload's meeting list has the new meeting appended; actions and state kept |
| IcUcObjectives.ObjectivesEditor.HandleDeleteMeeting | src/components/phases/ICUCObjectivesPhase.tsx:364-367 | the payload's meeting list lacks the id; actions and state kept |
| OrgChart.FindParent | src/components/phases/InitialUCMeetingPhase.tsx:2235 | a found supervisor has the key as its position or name |
| OrgChart.FindParentNone | src/components/phases/InitialUCMeetingPhase.tsx:2235-2236 | the search fails exactly when no node has the key as position or name |
| OrgChart.FindParentIsFirst | src/components/phases/InitialUCMeetingPhase.tsx:2235 | the found node is the first the key names |
| OrgChart.DepthFromStep | src/components/phases/InitialUCMeetingPhase.tsx:2234-2237 | one iteration: with a non-empty key, steps left and a supervisor found, the depth is one more than from that supervisor's key |
| OrgChart.DepthFrom | src/components/phases/InitialUCMeetingPhase.tsx:2233-2238 | the depth walk as a recursion: stop at an empty key, at the step cap or when no supervisor is found; otherwise one more from the supervisor |
| OrgChart.Depth | src/components/phases/InitialUCMeetingPhase.tsx:2233-2238 | the indentation depth of a node: the walk from its supervisor key with six steps |
| OrgChart.ComputeDepth | src/components/phases/InitialUCMeetingPhase.tsx:2233-2238 | the loop computes the recursive depth, never more than six |
| OrgChart.DepthFromBound | src/components/phases/InitialUCMeetingPhase.tsx:2234 | the walk never takes more steps than allowed |
| OrgChart.DepthFromCapped | src/components/phases/InitialUCMeetingPhase.tsx:2234 | a shorter step budget gives the longer walk's depth capped at that budget |
| OrgChart.SelfReportUsesAllSteps | src/components/phases/InitialUCMeetingPhase.tsx:2234-2237 | a cycle through the first match consumes every step the guard allows |
| OrgChart.SelfReportingNodeAtCap | src/components/phases/InitialUCMeetingPhase.tsx:2233-2238 | a node whose supervisor is itself is indented to the cap of six |
| OrgChart.DepthOfChild | src/components/phases/InitialUCMeetingPhase.tsx:2233-2238 | depth 0 with an empty or unknown supervisor; otherwise one below the supervisor's depth, capped at six |
| Wrappers.GetOr | src/App.tsx:145 | `x \|\| fallback` for an optional value: the value when present, otherwise the fallback |

## Left out

- Rendering, routing between the phase editors, the tabs, the SITREP dialog,
  the map component and the map script: they are presentation or external
  services.
- The export buttons (ICS-201, 202, 203, 207, 208, 213RR, 215, 215A, 230, 233,
  234, the threat report), and `getPhaseHeader`, `getSeverityPillClasses`,
  `getStatusColor` and `getWorkAssignmentStatusColor`: display helpers and
  stubs with no state behind them.
- The objectives editor's own `getPriorityColor`
  (src/components/phases/ICUCObjectivesPhase.tsx:473-484): it is defined but
  never called, so no badge depends on it.
- The window `switch-tab` and `threat-update` event plumbing, and their
  registration and removal; only the effect of a `threat-update` event is
  modelled.
- Clocks and id generation (`new Date()`, `Date.now().toString()`) are
  parameters.
- Dialog visibility flags and the resets of the add-forms after a successful
  add: UI state that no payload or contract depends on.
- Floating-point numbers are reals. A stored hazard whose GAR score is not an
  integer does not decode, so that payload's hazard list reads as empty.
- WorkMatrix.GarScoreColor: takes integer scores only, because the 1-10
  selector produces them through `parseInt`. A fractional score cannot occur.
- A payload entry that is present but has the wrong shape reads as the
  default, just as a missing one does. The untyped code would carry such an
  entry along unchecked.
- The org-chart nodes and their add/edit/delete, the position assignments and
  the safety messages of the meeting editor: they are component state that
  `updateData` never writes, so the phase payload does not depend on them.
  Only the depth walk over the nodes is modelled.
- The ICS-204 assignment list of the meeting editor (`handleAddAssignment`,
  src/components/phases/InitialUCMeetingPhase.tsx:903-917): it writes an
  `assignments` entry into the payload. It is outside the planning lists
  modelled here, so the model does not produce that entry.
- The `if (onDataChange)` guard of `updateData`: the app always passes the
  callback, so every emission reaches it.
- The resource-request rows of the meeting editor are written inline in the
  markup and have no handler functions. Their state is carried and
  round-trips, but adding and removing a row are not modelled.
- The schedule-meeting dialog, `CreateMeetingModal`, is not part of this
  model. Its output is taken as a `MeetingDetails` record.
- JsText.ParseInt: only calls without a radix are modelled, as the
  application makes them. The result is an unbounded integer, so the loss of
  precision above 2^53 and the value `-0` are not modelled.
