/**
 * The action tracker and the scheduled meetings, which both phase editors
 * keep in their payload under `actions` and `meetings` (read from the `data`
 * prop on every render, never held in component state). Generated ids
 * (`Date.now().toString()`) and creation dates are parameters.
 */
module ActionTracker {
  import opened Wrappers
  import opened Payload
  import opened JsText
  import Seqs

  /** `ActionItem`; `pocBriefed` is 'Yes' or 'No' in the UI, any string here. */
  datatype ActionItem = ActionItem(
    id: string, taskName: string, pointOfContact: string, pocBriefed: string,
    startDate: string, deadline: string, status: string, createdAt: Time)

  /**
   * `newAction`, a `Partial<ActionItem>` filled by the add-action form; an
   * absent field is the empty string, which `||` treats alike.
   */
  datatype ActionDraft = ActionDraft(
    taskName: string, pointOfContact: string, pocBriefed: string,
    startDate: string, deadline: string, status: string)

  /**
   * `handleAddAction`: rejected (no payload is emitted) unless the task name
   * and the point of contact are both non-empty; otherwise exactly one action
   * is appended, with 'No' and 'Not Started' filling an empty briefed flag
   * and status.
   */
  function AddAction(actions: seq<ActionItem>, draft: ActionDraft, id: string, now: Time): (r: Option<seq<ActionItem>>)
    ensures r.None? <==> draft.taskName == "" || draft.pointOfContact == ""
    ensures r.Some? ==> |r.value| == |actions| + 1 && r.value[..|actions|] == actions
    ensures r.Some? ==> var a := r.value[|actions|];
      && a.id == id && a.taskName == draft.taskName && a.pointOfContact == draft.pointOfContact
      && a.pocBriefed == (if draft.pocBriefed == "" then "No" else draft.pocBriefed)
      && a.startDate == draft.startDate && a.deadline == draft.deadline
      && a.status == (if draft.status == "" then "Not Started" else draft.status)
      && a.createdAt == now
  {
    if draft.taskName == "" || draft.pointOfContact == "" then None
    else
      var action := ActionItem(id, draft.taskName, draft.pointOfContact, OrElse(draft.pocBriefed, "No"),
        OrElse(draft.startDate, ""), OrElse(draft.deadline, ""), OrElse(draft.status, "Not Started"), now);
      Some(actions + [action])
  }

  /** The `field`/`value` pair of `handleUpdateAction`, one case per key of `ActionItem`. */
  datatype ActionEdit =
    | SetId(id: string) | SetTaskName(taskName: string) | SetPointOfContact(pointOfContact: string)
    | SetPocBriefed(pocBriefed: string) | SetStartDate(startDate: string) | SetDeadline(deadline: string)
    | SetStatus(status: string) | SetCreatedAt(createdAt: Time)

  /** `{ ...action, [field]: value }`. */
  function ApplyActionEdit(a: ActionItem, e: ActionEdit): ActionItem
  {
    match e
    case SetId(v) => a.(id := v)
    case SetTaskName(v) => a.(taskName := v)
    case SetPointOfContact(v) => a.(pointOfContact := v)
    case SetPocBriefed(v) => a.(pocBriefed := v)
    case SetStartDate(v) => a.(startDate := v)
    case SetDeadline(v) => a.(deadline := v)
    case SetStatus(v) => a.(status := v)
    case SetCreatedAt(v) => a.(createdAt := v)
  }

  /** The edit sets the field it names to its value and leaves every other field alone. */
  lemma ApplyActionEditOnlyField(a: ActionItem, e: ActionEdit)
    ensures var b := ApplyActionEdit(a, e);
      && (if e.SetId? then b.id == e.id else b.id == a.id)
      && (if e.SetTaskName? then b.taskName == e.taskName else b.taskName == a.taskName)
      && (if e.SetPointOfContact? then b.pointOfContact == e.pointOfContact else b.pointOfContact == a.pointOfContact)
      && (if e.SetPocBriefed? then b.pocBriefed == e.pocBriefed else b.pocBriefed == a.pocBriefed)
      && (if e.SetStartDate? then b.startDate == e.startDate else b.startDate == a.startDate)
      && (if e.SetDeadline? then b.deadline == e.deadline else b.deadline == a.deadline)
      && (if e.SetStatus? then b.status == e.status else b.status == a.status)
      && (if e.SetCreatedAt? then b.createdAt == e.createdAt else b.createdAt == a.createdAt)
  {
  }

  /**
   * `handleUpdateAction`: the actions with id `actionId` get the edit, the
   * others stay; length and order are kept.
   */
  function UpdateAction(actions: seq<ActionItem>, actionId: string, e: ActionEdit): (r: seq<ActionItem>)
    ensures |r| == |actions|
    ensures forall i :: 0 <= i < |actions| ==>
      r[i] == if actions[i].id == actionId then ApplyActionEdit(actions[i], e) else actions[i]
  {
    Seqs.MapWhere(actions, (a: ActionItem) => a.id == actionId, (a: ActionItem) => ApplyActionEdit(a, e))
  }

  /**
   * `handleDeleteAction`: exactly the actions with id `actionId` are removed;
   * the rest keep their order and multiplicity.
   */
  function DeleteAction(actions: seq<ActionItem>, actionId: string): (r: seq<ActionItem>)
    ensures forall a :: a in r <==> a in actions && a.id != actionId
    ensures forall a :: a in actions && a.id != actionId ==> multiset(r)[a] == multiset(actions)[a]
    ensures Seqs.IsSubsequence(r, actions)
  {
    Seqs.Filter(actions, (a: ActionItem) => a.id != actionId)
  }

  /** Deleting an id no action carries changes nothing. */
  lemma DeleteAbsentAction(actions: seq<ActionItem>, actionId: string)
    requires forall i :: 0 <= i < |actions| ==> actions[i].id != actionId
    ensures DeleteAction(actions, actionId) == actions
  {
    Seqs.FilterKeepsAll(actions, (a: ActionItem) => a.id != actionId);
  }

  /** After a delete no action carries the id, so deleting again changes nothing. */
  lemma DeleteActionIdempotent(actions: seq<ActionItem>, actionId: string)
    ensures DeleteAction(DeleteAction(actions, actionId), actionId) == DeleteAction(actions, actionId)
  {
    Seqs.FilterIdempotent(actions, (a: ActionItem) => a.id != actionId);
  }

  // ---------------------------------------------------------------------------
  // Meetings

  datatype Meeting = Meeting(
    id: string, meetingName: string, meetingType: string, attendees: string,
    date: string, startTime: string, endTime: string, location: string,
    isInPerson: bool, virtualLink: string, agenda: string, createdAt: Time)

  /** What the schedule-meeting form hands to `handleCreateMeeting`. */
  datatype MeetingDetails = MeetingDetails(
    meetingName: string, meetingType: string, attendees: string,
    date: string, startTime: string, endTime: string, location: string,
    isInPerson: bool, virtualLink: string, agenda: string)

  /** `handleCreateMeeting`: the new meeting, with the given id and creation date, is appended. */
  function CreateMeeting(meetings: seq<Meeting>, d: MeetingDetails, id: string, now: Time): (r: seq<Meeting>)
    ensures |r| == |meetings| + 1 && r[..|meetings|] == meetings
    ensures r[|meetings|].id == id && r[|meetings|].createdAt == now
    ensures r[|meetings|].meetingName == d.meetingName && r[|meetings|].meetingType == d.meetingType
    ensures r[|meetings|].attendees == d.attendees && r[|meetings|].date == d.date
    ensures r[|meetings|].startTime == d.startTime && r[|meetings|].endTime == d.endTime
    ensures r[|meetings|].location == d.location && r[|meetings|].isInPerson == d.isInPerson
    ensures r[|meetings|].virtualLink == d.virtualLink && r[|meetings|].agenda == d.agenda
  {
    meetings + [Meeting(id, d.meetingName, d.meetingType, d.attendees, d.date, d.startTime, d.endTime,
                        d.location, d.isInPerson, d.virtualLink, d.agenda, now)]
  }

  /** `handleDeleteMeeting`: exactly the meetings with id `meetingId` are removed, the rest keep their order. */
  function DeleteMeeting(meetings: seq<Meeting>, meetingId: string): (r: seq<Meeting>)
    ensures forall m :: m in r <==> m in meetings && m.id != meetingId
    ensures forall m :: m in meetings && m.id != meetingId ==> multiset(r)[m] == multiset(meetings)[m]
    ensures Seqs.IsSubsequence(r, meetings)
  {
    Seqs.Filter(meetings, (m: Meeting) => m.id != meetingId)
  }

  // ---------------------------------------------------------------------------
  // The payload entries

  function EncodeAction(a: ActionItem): Value
  {
    Obj(map["id" := Str(a.id), "taskName" := Str(a.taskName), "pointOfContact" := Str(a.pointOfContact),
            "pocBriefed" := Str(a.pocBriefed), "startDate" := Str(a.startDate), "deadline" := Str(a.deadline),
            "status" := Str(a.status), "createdAt" := Date(a.createdAt)])
  }

  function DecodeAction(v: Value): Option<ActionItem>
  {
    if v.Obj? then
      var f := v.fields;
      if && GetStr(f, "id").Some? && GetStr(f, "taskName").Some? && GetStr(f, "pointOfContact").Some?
         && GetStr(f, "pocBriefed").Some? && GetStr(f, "startDate").Some? && GetStr(f, "deadline").Some?
         && GetStr(f, "status").Some? && GetDate(f, "createdAt").Some?
      then Some(ActionItem(f["id"].s, f["taskName"].s, f["pointOfContact"].s, f["pocBriefed"].s,
                           f["startDate"].s, f["deadline"].s, f["status"].s, f["createdAt"].time))
      else None
    else None
  }

  lemma DecodeActionOfEncoded(a: ActionItem)
    ensures DecodeAction(EncodeAction(a)) == Some(a)
  {
  }

  function EncodeMeeting(m: Meeting): Value
  {
    Obj(map["id" := Str(m.id), "meetingName" := Str(m.meetingName), "meetingType" := Str(m.meetingType),
            "attendees" := Str(m.attendees), "date" := Str(m.date), "startTime" := Str(m.startTime),
            "endTime" := Str(m.endTime), "location" := Str(m.location), "isInPerson" := Bool(m.isInPerson),
            "virtualLink" := Str(m.virtualLink), "agenda" := Str(m.agenda), "createdAt" := Date(m.createdAt)])
  }

  function DecodeMeeting(v: Value): Option<Meeting>
  {
    if v.Obj? then
      var f := v.fields;
      if && GetStr(f, "id").Some? && GetStr(f, "meetingName").Some? && GetStr(f, "meetingType").Some?
         && GetStr(f, "attendees").Some? && GetStr(f, "date").Some? && GetStr(f, "startTime").Some?
         && GetStr(f, "endTime").Some? && GetStr(f, "location").Some? && GetBool(f, "isInPerson").Some?
         && GetStr(f, "virtualLink").Some? && GetStr(f, "agenda").Some? && GetDate(f, "createdAt").Some?
      then Some(Meeting(f["id"].s, f["meetingName"].s, f["meetingType"].s, f["attendees"].s, f["date"].s,
                        f["startTime"].s, f["endTime"].s, f["location"].s, f["isInPerson"].b,
                        f["virtualLink"].s, f["agenda"].s, f["createdAt"].time))
      else None
    else None
  }

  lemma DecodeMeetingOfEncoded(m: Meeting)
    ensures DecodeMeeting(EncodeMeeting(m)) == Some(m)
  {
    MeetingFieldsFirst(m);
    MeetingFieldsRest(m);
  }

  /** The first six entries of an encoded meeting. */
  lemma MeetingFieldsFirst(m: Meeting)
    ensures EncodeMeeting(m).Obj?
    ensures var f := EncodeMeeting(m).fields;
      && GetStr(f, "id") == Some(m.id) && GetStr(f, "meetingName") == Some(m.meetingName)
      && GetStr(f, "meetingType") == Some(m.meetingType) && GetStr(f, "attendees") == Some(m.attendees)
      && GetStr(f, "date") == Some(m.date) && GetStr(f, "startTime") == Some(m.startTime)
  {
  }

  /** The last six entries of an encoded meeting. */
  lemma MeetingFieldsRest(m: Meeting)
    ensures EncodeMeeting(m).Obj?
    ensures var f := EncodeMeeting(m).fields;
      && GetStr(f, "endTime") == Some(m.endTime) && GetStr(f, "location") == Some(m.location)
      && GetBool(f, "isInPerson") == Some(m.isInPerson) && GetStr(f, "virtualLink") == Some(m.virtualLink)
      && GetStr(f, "agenda") == Some(m.agenda) && GetDate(f, "createdAt") == Some(m.createdAt)
  {
  }

  /** `data.actions || []`: a missing or malformed entry reads as no actions. */
  function ActionsOf(data: Data): seq<ActionItem>
  {
    ListOf(data, "actions", DecodeAction)
  }

  /** `data.meetings || []`. */
  function MeetingsOf(data: Data): seq<Meeting>
  {
    ListOf(data, "meetings", DecodeMeeting)
  }

  /** An action list written into the payload is what the next render reads back. */
  lemma ActionsOfStored(data: Data, actions: seq<ActionItem>)
    requires "actions" in data && data["actions"] == EncodeList(actions, EncodeAction)
    ensures ActionsOf(data) == actions
  {
    forall i | 0 <= i < |actions| ensures DecodeAction(EncodeAction(actions[i])) == Some(actions[i]) {
      DecodeActionOfEncoded(actions[i]);
    }
    ListOfStored(data, "actions", actions, EncodeAction, DecodeAction);
  }

  /** A meeting list written into the payload is what the next render reads back. */
  lemma MeetingsOfStored(data: Data, meetings: seq<Meeting>)
    requires "meetings" in data && data["meetings"] == EncodeList(meetings, EncodeMeeting)
    ensures MeetingsOf(data) == meetings
  {
    forall i | 0 <= i < |meetings| ensures DecodeMeeting(EncodeMeeting(meetings[i])) == Some(meetings[i]) {
      DecodeMeetingOfEncoded(meetings[i]);
    }
    ListOfStored(data, "meetings", meetings, EncodeMeeting, DecodeMeeting);
  }
}
