/** The two record types of backend/models.py, their column defaults and
    their `to_dict` shaping. The JSON-text list columns are modelled by
    `ListColumn`: `Unset` is a NULL or empty-string column, `Stored(xs)` is the
    text `json.dumps(xs)`. */
module Models {
  import opened Basics
  import opened Clock

  datatype ListColumn = Unset | Stored(items: seq<string>)

  /** `json.loads(col) if col else []` */
  function ReadList(col: ListColumn): (xs: seq<string>)
    ensures col.Unset? ==> xs == []
  {
    match col
    case Unset => []
    case Stored(items) => items
  }

  /** `json.dumps(xs)`: what is written reads back as the same list. */
  function WriteList(xs: seq<string>): (col: ListColumn)
    ensures ReadList(col) == xs
  {
    Stored(xs)
  }

  /** A row of the `meeting` table. */
  datatype Meeting = Meeting(
    id: int,
    title: string,
    datetime: Option<Timestamp>,
    participants: ListColumn,
    rawNotes: string,
    aiSummary: string,
    tags: ListColumn,
    meetingLink: string,
    createdAt: Timestamp)

  /** A row of the `action_item` table; `meetingId` is the foreign key. */
  datatype ActionItem = ActionItem(
    id: int,
    meetingId: int,
    description: string,
    owner: string,
    dueDate: Option<Timestamp>,
    status: string)

  const DefaultOwner := "Unassigned"
  const PendingStatus := "pending"

  /** A meeting row as inserted when only the required `title` is given:
      every other column takes its declared default, the two timestamps the
      insertion time. */
  function NewMeeting(id: int, title: string, now: Timestamp): (m: Meeting)
    ensures m.id == id && m.title == title
    ensures m.datetime == Some(now) && m.createdAt == now
    ensures ReadList(m.participants) == [] && ReadList(m.tags) == []
    ensures m.rawNotes == "" && m.aiSummary == "" && m.meetingLink == ""
  {
    Meeting(id, title, Some(now), WriteList([]), "", "", WriteList([]), "", now)
  }

  /** An action-item row as inserted when only the required columns are
      given: owner "Unassigned", status "pending", no due date. */
  function NewActionItem(id: int, meetingId: int, description: string): (a: ActionItem)
    ensures a.id == id && a.meetingId == meetingId && a.description == description
    ensures a.owner == DefaultOwner && a.status == PendingStatus && a.dueDate == None
  {
    ActionItem(id, meetingId, description, DefaultOwner, None, PendingStatus)
  }

  /** The JSON object `Meeting.to_dict` returns. */
  datatype MeetingDict = MeetingDict(
    id: int,
    title: string,
    datetime: Option<string>,
    participants: seq<string>,
    rawNotes: string,
    aiSummary: string,
    tags: seq<string>,
    meetingLink: string,
    createdAt: string)

  /** The JSON object `ActionItem.to_dict` returns. */
  datatype ItemDict = ItemDict(
    id: int,
    meetingId: int,
    description: string,
    owner: string,
    dueDate: Option<string>,
    status: string)

  /** `Meeting.to_dict`: the list columns are decoded (an unset one reads as
      the empty list), an unset datetime reads as null, and the text columns
      are copied. */
  function MeetingToDict(m: Meeting, iso: Timestamp -> string): (d: MeetingDict)
    ensures d.id == m.id && d.title == m.title
    ensures d.datetime.None? <==> m.datetime.None?
    ensures m.datetime.Some? ==> d.datetime == Some(iso(m.datetime.value))
    ensures m.participants.Unset? ==> d.participants == []
    ensures m.participants.Stored? ==> d.participants == m.participants.items
    ensures m.tags.Unset? ==> d.tags == []
    ensures m.tags.Stored? ==> d.tags == m.tags.items
    ensures d.rawNotes == m.rawNotes && d.aiSummary == m.aiSummary
    ensures d.meetingLink == m.meetingLink && d.createdAt == iso(m.createdAt)
  {
    MeetingDict(
      m.id,
      m.title,
      if m.datetime.Some? then Some(iso(m.datetime.value)) else None,
      ReadList(m.participants),
      m.rawNotes,
      m.aiSummary,
      ReadList(m.tags),
      m.meetingLink,
      iso(m.createdAt))
  }

  /** `ActionItem.to_dict`: an unset due date reads as null. */
  function ItemToDict(a: ActionItem, iso: Timestamp -> string): (d: ItemDict)
    ensures d.id == a.id && d.meetingId == a.meetingId
    ensures d.description == a.description && d.owner == a.owner && d.status == a.status
    ensures d.dueDate.None? <==> a.dueDate.None?
    ensures a.dueDate.Some? ==> d.dueDate == Some(iso(a.dueDate.value))
  {
    ItemDict(
      a.id,
      a.meetingId,
      a.description,
      a.owner,
      if a.dueDate.Some? then Some(iso(a.dueDate.value)) else None,
      a.status)
  }

  /** A freshly inserted meeting reads back with empty lists, empty texts and
      its insertion time. */
  lemma NewMeetingReadsBack(id: int, title: string, now: Timestamp, iso: Timestamp -> string)
    ensures var d := MeetingToDict(NewMeeting(id, title, now), iso);
      d.participants == [] && d.tags == [] && d.rawNotes == "" && d.aiSummary == ""
      && d.meetingLink == "" && d.datetime == Some(iso(now))
  {
  }

  /** A list written by a handler reads back unchanged through `to_dict`. */
  lemma WrittenTagsReadBack(m: Meeting, xs: seq<string>, iso: Timestamp -> string)
    ensures MeetingToDict(m.(tags := WriteList(xs)), iso).tags == xs
    ensures MeetingToDict(m.(participants := WriteList(xs)), iso).participants == xs
  {
  }
}
