/** The request handlers of backend/app.py over an in-memory store that
    stands in for the two database tables. Each table is a sequence of rows
    in insertion order, which is ascending id order: ids come from a counter,
    as an autoincrementing primary key hands them out. A handler that the
    source answers with 404 or 400 returns `Failure` and leaves the store as
    it was. */
module App {
  import opened Basics
  import opened Clock
  import opened Text
  import opened Models
  import AIService

  datatype Error = NotFound | BadRequest(message: string)

  /** The HTTP status the source answers an error with. */
  function StatusCode(e: Error): int {
    match e
    case NotFound => 404
    case BadRequest(_) => 400
  }

  /** The JSON body of a create or update request: `None` is a key that is
      not in the payload. */
  datatype MeetingPayload = MeetingPayload(
    title: Option<string>,
    rawNotes: Option<string>,
    aiSummary: Option<string>,
    meetingLink: Option<string>,
    participants: Option<seq<string>>,
    tags: Option<seq<string>>)

  /** The JSON body of an action-item update. */
  datatype ItemPayload = ItemPayload(status: Option<string>, owner: Option<string>)

  /** `get_meeting`'s response: the meeting and its action items. */
  datatype MeetingView = MeetingView(meeting: MeetingDict, actionItems: seq<ItemDict>)

  /** `summarize_meeting`'s response. */
  datatype SummarizeResponse = SummarizeResponse(summary: string, tags: seq<string>, actionItems: seq<ItemDict>)

  const DefaultTitle := "Untitled Meeting"
  const DeletedMessage := "Meeting deleted"
  const QueryRequired := "Query required"

  function MeetingIds(ms: seq<Meeting>): (ids: seq<int>)
    ensures |ids| == |ms| && forall i :: 0 <= i < |ms| ==> ids[i] == ms[i].id
  {
    seq(|ms|, i requires 0 <= i < |ms| => ms[i].id)
  }

  function ItemIds(items: seq<ActionItem>): (ids: seq<int>)
    ensures |ids| == |items| && forall i :: 0 <= i < |items| ==> ids[i] == items[i].id
  {
    seq(|items|, i requires 0 <= i < |items| => items[i].id)
  }

  /** `Model.query.get(id)`: the position of the first row whose primary key
      is `id`, or `None` iff there is no such row. */
  function IndexOf(ids: seq<int>, id: int): (r: Option<nat>)
    ensures r.Some? ==> r.value < |ids| && ids[r.value] == id
    ensures r.Some? ==> forall i :: 0 <= i < r.value ==> ids[i] != id
    ensures r.None? <==> id !in ids
  {
    if ids == [] then None
    else if ids[0] == id then Some(0)
    else
      match IndexOf(ids[1..], id)
      case None => None
      case Some(k) => Some(k + 1)
  }

  /** Primary keys in increasing order, hence distinct. */
  predicate Increasing(ids: seq<int>) {
    forall i, j :: 0 <= i < j < |ids| ==> ids[i] < ids[j]
  }

  /** The row `create_meeting` inserts: a key absent from the payload takes
      its default ("Untitled Meeting", no participants, no notes, no tags);
      the summary and the link start empty, both timestamps are `now`. */
  function CreatedMeeting(id: int, data: MeetingPayload, now: Timestamp): (m: Meeting)
    ensures m.id == id
    ensures m.title == (if data.title.Some? then data.title.value else DefaultTitle)
    ensures ReadList(m.participants) == (if data.participants.Some? then data.participants.value else [])
    ensures m.rawNotes == (if data.rawNotes.Some? then data.rawNotes.value else "")
    ensures ReadList(m.tags) == (if data.tags.Some? then data.tags.value else [])
    ensures m.aiSummary == "" && m.meetingLink == ""
    ensures m.datetime == Some(now) && m.createdAt == now
  {
    NewMeeting(id, data.title.GetOr(DefaultTitle), now).(
      participants := WriteList(data.participants.GetOr([])),
      rawNotes := data.rawNotes.GetOr(""),
      tags := WriteList(data.tags.GetOr([])))
  }

  /** What `update_meeting` does to a row: each of the six editable fields
      takes the payload's value iff its key is present and keeps its value
      otherwise; a present list replaces the stored one wholesale; the id and
      both timestamps never change. */
  function Patched(m: Meeting, data: MeetingPayload): (m': Meeting)
    ensures m'.id == m.id && m'.datetime == m.datetime && m'.createdAt == m.createdAt
    ensures m'.title == (if data.title.Some? then data.title.value else m.title)
    ensures m'.rawNotes == (if data.rawNotes.Some? then data.rawNotes.value else m.rawNotes)
    ensures m'.aiSummary == (if data.aiSummary.Some? then data.aiSummary.value else m.aiSummary)
    ensures m'.meetingLink == (if data.meetingLink.Some? then data.meetingLink.value else m.meetingLink)
    ensures data.participants.Some? ==> ReadList(m'.participants) == data.participants.value
    ensures data.participants.None? ==> m'.participants == m.participants
    ensures data.tags.Some? ==> ReadList(m'.tags) == data.tags.value
    ensures data.tags.None? ==> m'.tags == m.tags
    ensures data == MeetingPayload(None, None, None, None, None, None) ==> m' == m
  {
    m.(title := data.title.GetOr(m.title),
       rawNotes := data.rawNotes.GetOr(m.rawNotes),
       aiSummary := data.aiSummary.GetOr(m.aiSummary),
       meetingLink := data.meetingLink.GetOr(m.meetingLink),
       participants := if data.participants.Some? then WriteList(data.participants.value) else m.participants,
       tags := if data.tags.Some? then WriteList(data.tags.value) else m.tags)
  }

  /** What `update_action_item` does to a row: `status` and `owner` take the
      payload's values when present (the status is not checked against the
      pending / in-progress / completed list); nothing else changes. */
  function ItemPatched(a: ActionItem, data: ItemPayload): (a': ActionItem)
    ensures a'.id == a.id && a'.meetingId == a.meetingId
    ensures a'.description == a.description && a'.dueDate == a.dueDate
    ensures a'.status == (if data.status.Some? then data.status.value else a.status)
    ensures a'.owner == (if data.owner.Some? then data.owner.value else a.owner)
  {
    a.(status := data.status.GetOr(a.status), owner := data.owner.GetOr(a.owner))
  }

  /** The rows `summarize_meeting` adds for the generated items, ids from
      `firstId` on: one per item, owned by `meetingId`, the description,
      owner, due date and status copied from the item. */
  function StoredItems(firstId: int, meetingId: int, gen: seq<AIService.GeneratedItem>): (items: seq<ActionItem>)
    ensures |items| == |gen|
    ensures forall k :: 0 <= k < |gen| ==> items[k].id == firstId + k && items[k].meetingId == meetingId
    ensures forall k :: 0 <= k < |gen| ==> items[k].description == gen[k].description && items[k].owner == gen[k].owner
    ensures forall k :: 0 <= k < |gen| ==> items[k].dueDate == Some(gen[k].dueDate) && items[k].status == gen[k].status
  {
    seq(|gen|, k requires 0 <= k < |gen| =>
      ActionItem(firstId + k, meetingId, gen[k].description, gen[k].owner, Some(gen[k].dueDate), gen[k].status))
  }

  /** `ActionItem.query.filter_by(meeting_id=id).all()`: the items of one
      meeting, in table order. */
  function ItemsOf(items: seq<ActionItem>, meetingId: int): (r: seq<ActionItem>)
    ensures |r| <= |items|
    ensures forall k :: 0 <= k < |r| ==> r[k] in items && r[k].meetingId == meetingId
    ensures forall a :: a in items && a.meetingId == meetingId ==> a in r
  {
    if items == [] then []
    else
      var init, last := items[..|items| - 1], items[|items| - 1];
      assert items == init + [last];
      ItemsOf(init, meetingId) + (if last.meetingId == meetingId then [last] else [])
  }

  /** The positions in `items` of the rows `ItemsOf` keeps, increasing. */
  ghost function ItemPositions(items: seq<ActionItem>, meetingId: int): (pos: seq<nat>)
    ensures |pos| == |ItemsOf(items, meetingId)|
    ensures forall j :: 0 <= j < |pos| ==> pos[j] < |items|
    ensures forall j, k :: 0 <= j < k < |pos| ==> pos[j] < pos[k]
  {
    if items == [] then []
    else ItemPositions(items[..|items| - 1], meetingId)
         + (if items[|items| - 1].meetingId == meetingId then [|items| - 1] else [])
  }

  /** `ItemsOf` keeps the rows at `ItemPositions`, in that order. */
  lemma {:induction false} ItemsAtPositions(items: seq<ActionItem>, meetingId: int)
    ensures forall j :: 0 <= j < |ItemsOf(items, meetingId)| ==>
      ItemsOf(items, meetingId)[j] == items[ItemPositions(items, meetingId)[j]]
  {
    if items != [] {
      var init, last := items[..|items| - 1], items[|items| - 1];
      ItemsAtPositions(init, meetingId);
      assert items == init + [last];
      SelectionSnoc(init, last, ItemsOf(init, meetingId), ItemPositions(init, meetingId), last.meetingId == meetingId);
    }
  }

  /** A position is kept iff the row there belongs to the meeting. */
  lemma {:induction false} ItemPositionsExact(items: seq<ActionItem>, meetingId: int)
    ensures forall i :: 0 <= i < |items| ==>
      (i in ItemPositions(items, meetingId) <==> items[i].meetingId == meetingId)
  {
    if items != [] {
      var init := items[..|items| - 1];
      var hit := items[|items| - 1].meetingId == meetingId;
      var pos0 := ItemPositions(init, meetingId);
      ItemPositionsExact(init, meetingId);
      assert ItemPositions(items, meetingId) == pos0 + (if hit then [|init|] else []);
      forall i | 0 <= i < |items|
        ensures i in ItemPositions(items, meetingId) <==> items[i].meetingId == meetingId
      {
        if i < |init| {
          assert init[i] == items[i];
          assert i in ItemPositions(items, meetingId) <==> i in pos0;
        } else {
          assert i !in pos0;
        }
      }
    }
  }

  /** `ItemsOf` is exactly the in-order subsequence of the meeting's rows:
      it picks positions in increasing order, and a position is picked iff
      the row there has that `meeting_id`. */
  lemma ItemsOfIsOrderedSelection(items: seq<ActionItem>, meetingId: int)
    ensures var r, pos := ItemsOf(items, meetingId), ItemPositions(items, meetingId);
      && |pos| == |r|
      && (forall j :: 0 <= j < |pos| ==> pos[j] < |items| && r[j] == items[pos[j]])
      && (forall j, k :: 0 <= j < k < |pos| ==> pos[j] < pos[k])
      && (forall i :: 0 <= i < |items| ==> (i in pos <==> items[i].meetingId == meetingId))
  {
    ItemsAtPositions(items, meetingId);
    ItemPositionsExact(items, meetingId);
  }

  function ItemDicts(items: seq<ActionItem>, iso: Timestamp -> string): (ds: seq<ItemDict>)
    ensures |ds| == |items| && forall k :: 0 <= k < |items| ==> ds[k] == ItemToDict(items[k], iso)
  {
    seq(|items|, k requires 0 <= k < |items| => ItemToDict(items[k], iso))
  }

  /** `set(current_tags + new_tags)` */
  function MergedTags(current: ListColumn, generated: seq<string>): (tags: set<string>)
    ensures tags == Elems(ReadList(current)) + Elems(generated)
  {
    Elems(ReadList(current) + generated)
  }

  /** Merging the same generated tags a second time changes nothing. */
  lemma MergeTwiceIsMergeOnce(current: ListColumn, generated: seq<string>, merged: seq<string>)
    requires Elems(merged) == MergedTags(current, generated)
    ensures MergedTags(WriteList(merged), generated) == MergedTags(current, generated)
  {
  }

  /** Appending a row whose key exceeds every key keeps them increasing. */
  lemma MeetingsSnoc(ms: seq<Meeting>, m: Meeting)
    requires Increasing(MeetingIds(ms))
    requires forall i :: 0 <= i < |ms| ==> ms[i].id < m.id
    ensures MeetingIds(ms + [m]) == MeetingIds(ms) + [m.id]
    ensures Increasing(MeetingIds(ms + [m]))
  {
    assert MeetingIds(ms + [m]) == MeetingIds(ms) + [m.id];
  }

  /** Replacing a row by one with the same key leaves the keys as they were. */
  lemma MeetingsUpdate(ms: seq<Meeting>, k: nat, m: Meeting)
    requires k < |ms| && m.id == ms[k].id
    ensures MeetingIds(ms[k := m]) == MeetingIds(ms)
  {
    assert MeetingIds(ms[k := m]) == MeetingIds(ms);
  }

  /** Dropping a row drops its key. */
  lemma MeetingsWithout(ms: seq<Meeting>, k: nat)
    requires k < |ms| && Increasing(MeetingIds(ms))
    ensures MeetingIds(ms[..k] + ms[k + 1..]) == MeetingIds(ms)[..k] + MeetingIds(ms)[k + 1..]
    ensures Increasing(MeetingIds(ms[..k] + ms[k + 1..]))
    ensures ms[k].id !in MeetingIds(ms[..k] + ms[k + 1..])
  {
    var ids := MeetingIds(ms);
    assert MeetingIds(ms[..k] + ms[k + 1..]) == ids[..k] + ids[k + 1..];
    IncreasingWithout(ids, k);
    var rest := ids[..k] + ids[k + 1..];
    forall i | 0 <= i < |rest| ensures rest[i] != ms[k].id {
      if i < k { assert rest[i] == ids[i]; } else { assert rest[i] == ids[i + 1]; }
    }
  }

  lemma ItemsUpdate(items: seq<ActionItem>, k: nat, a: ActionItem)
    requires k < |items| && a.id == items[k].id
    ensures ItemIds(items[k := a]) == ItemIds(items)
  {
    assert ItemIds(items[k := a]) == ItemIds(items);
  }

  lemma ItemsSnoc(items: seq<ActionItem>, a: ActionItem)
    requires Increasing(ItemIds(items))
    requires forall i :: 0 <= i < |items| ==> items[i].id < a.id
    ensures Increasing(ItemIds(items + [a]))
  {
    assert ItemIds(items + [a]) == ItemIds(items) + [a.id];
  }

  /** Dropping a row keeps the keys increasing. */
  lemma IncreasingWithout(ids: seq<int>, k: nat)
    requires Increasing(ids) && k < |ids|
    ensures Increasing(ids[..k] + ids[k + 1..])
  {
    var s := ids[..k] + ids[k + 1..];
    forall i, j | 0 <= i < j < |s| ensures s[i] < s[j] {
      var i' := if i < k then i else i + 1;
      var j' := if j < k then j else j + 1;
      assert s[i] == ids[i'] && s[j] == ids[j'];
    }
  }

  /** The effect of `summarize_meeting` on the tables, given the service's
      output `s` for the meeting at position `k`: the row's summary becomes
      the generated text and its tags the stored ones united with the
      generated ones, each listed once; nothing else in the meeting table
      changes; one action item per generated item is appended with fresh
      ids; and the response carries the summary, the merged tags and the new
      items. */
  ghost predicate SummaryApplied(
    meetings: seq<Meeting>, items: seq<ActionItem>, lastItemId: int, k: nat,
    s: AIService.Summary, iso: Timestamp -> string,
    meetings': seq<Meeting>, items': seq<ActionItem>, lastItemId': int, response: SummarizeResponse)
  {
    && k < |meetings|
    && var m := meetings[k];
       var added := StoredItems(lastItemId + 1, m.id, s.actionItems);
       && meetings' == meetings[k := m.(aiSummary := s.text, tags := WriteList(response.tags))]
       && Elems(response.tags) == MergedTags(m.tags, s.tags)
       && Distinct(response.tags)
       && items' == items + added
       && lastItemId' == lastItemId + |s.actionItems|
       && response.summary == s.text
       && response.actionItems == ItemDicts(added, iso)
  }

  /** Summarizing the same meeting twice, at clock readings `now1` and
      `now2`. The first call leaves the notes alone, so the second call sees
      the same notes: the service proposes the same tags and as many items
      (only the header's time and the due dates may differ). The second call
      therefore leaves the meeting's tag set as the first call made it (the
      union is idempotent), while the action-item table grows again by the
      same number of rows, keeping the rows the first call added. */
  lemma {:induction false} RepeatedSummary(
    ms0: seq<Meeting>, items0: seq<ActionItem>, last0: int, k: nat,
    now1: Timestamp, now2: Timestamp, clock: Timestamp -> string, iso: Timestamp -> string,
    ms1: seq<Meeting>, items1: seq<ActionItem>, last1: int, response1: SummarizeResponse,
    ms2: seq<Meeting>, items2: seq<ActionItem>, last2: int, response2: SummarizeResponse)
    requires k < |ms0|
    requires SummaryApplied(ms0, items0, last0, k, AIService.Summarize(ms0[k].rawNotes, now1, clock), iso,
                            ms1, items1, last1, response1)
    requires SummaryApplied(ms1, items1, last1, k, AIService.Summarize(ms1[k].rawNotes, now2, clock), iso,
                            ms2, items2, last2, response2)
    ensures ms1[k].rawNotes == ms0[k].rawNotes && ms1[k].id == ms0[k].id
    ensures Elems(response2.tags) == Elems(response1.tags)
    ensures Elems(ReadList(ms2[k].tags)) == Elems(ReadList(ms1[k].tags))
    ensures |items2| - |items1| == |items1| - |items0|
    ensures ms0[k].rawNotes != "" ==> |items1| < |items2|
    ensures items2[..|items1|] == items1
    ensures forall i :: 0 <= i < |ms1| && i != k ==> ms2[i] == ms1[i] == ms0[i]
  {
    var m0 := ms0[k];
    var s1 := AIService.Summarize(m0.rawNotes, now1, clock);
    var s2 := AIService.Summarize(ms1[k].rawNotes, now2, clock);
    assert ms1[k] == m0.(aiSummary := s1.text, tags := WriteList(response1.tags));
    assert s2.tags == s1.tags && |s2.actionItems| == |s1.actionItems|;
    assert ReadList(ms1[k].tags) == response1.tags;
    MergeTwiceIsMergeOnce(m0.tags, s1.tags, response1.tags);
    assert ReadList(ms2[k].tags) == response2.tags;
  }

  /** The row `create_meeting` builds: the model's defaults, then the
      payload's title, notes and lists in place of the defaults. */
  method BuildMeeting(id: int, data: MeetingPayload, now: Timestamp) returns (m: Meeting)
    ensures m == CreatedMeeting(id, data, now)
  {
    var title := if data.title.Some? then data.title.value else DefaultTitle;
    m := NewMeeting(id, title, now);
    m := m.(rawNotes := if data.rawNotes.Some? then data.rawNotes.value else "");
    m := m.(participants := WriteList(if data.participants.Some? then data.participants.value else []));
    m := m.(tags := WriteList(if data.tags.Some? then data.tags.value else []));
  }

  /** The field-by-field assignments of `update_meeting`, one per key that
      is present in the payload. */
  method PatchRow(meeting: Meeting, data: MeetingPayload) returns (m: Meeting)
    ensures m == Patched(meeting, data)
  {
    m := meeting;
    if data.title.Some? { m := m.(title := data.title.value); }
    if data.rawNotes.Some? { m := m.(rawNotes := data.rawNotes.value); }
    if data.aiSummary.Some? { m := m.(aiSummary := data.aiSummary.value); }
    if data.meetingLink.Some? { m := m.(meetingLink := data.meetingLink.value); }
    if data.participants.Some? { m := m.(participants := WriteList(data.participants.value)); }
    if data.tags.Some? { m := m.(tags := WriteList(data.tags.value)); }
  }

  class MeetingStore {
    /** The `meeting` table. */
    var meetings: seq<Meeting>
    /** The `action_item` table. */
    var actionItems: seq<ActionItem>
    /** The last primary key handed out in each table. */
    var lastMeetingId: int
    var lastItemId: int

    /** Keys are increasing and no larger than the last one handed out, and
        every meeting has its datetime (create_meeting always sets it). */
    ghost predicate Valid()
      reads this
    {
      && Increasing(MeetingIds(meetings))
      && Increasing(ItemIds(actionItems))
      && (forall i :: 0 <= i < |meetings| ==> meetings[i].id <= lastMeetingId)
      && (forall i :: 0 <= i < |actionItems| ==> actionItems[i].id <= lastItemId)
      && AIService.AllDated(meetings)
    }

    constructor ()
      ensures Valid()
      ensures meetings == [] && actionItems == []
      ensures lastMeetingId == 0 && lastItemId == 0
    {
      meetings, actionItems := [], [];
      lastMeetingId, lastItemId := 0, 0;
    }

    /** `create_meeting` (POST /api/meetings, status 201). */
    method CreateMeeting(data: MeetingPayload, now: Timestamp, f: Formats) returns (created: MeetingDict)
      requires Valid()
      modifies this
      ensures Valid()
      ensures lastMeetingId == old(lastMeetingId) + 1
      ensures meetings == old(meetings) + [CreatedMeeting(lastMeetingId, data, now)]
      ensures actionItems == old(actionItems) && lastItemId == old(lastItemId)
      ensures created == MeetingToDict(CreatedMeeting(lastMeetingId, data, now), f.iso)
    {
      var newMeeting := BuildMeeting(lastMeetingId + 1, data, now);
      MeetingsSnoc(meetings, newMeeting);
      lastMeetingId := lastMeetingId + 1;
      meetings := meetings + [newMeeting];
      created := MeetingToDict(newMeeting, f.iso);
    }

    /** `get_meeting` (GET /api/meetings/<id>). */
    method GetMeeting(id: int, f: Formats) returns (r: Result<MeetingView, Error>)
      requires Valid()
      ensures id !in MeetingIds(meetings) ==> r == Failure(NotFound)
      ensures forall k :: 0 <= k < |meetings| && meetings[k].id == id ==>
        r == Success(MeetingView(MeetingToDict(meetings[k], f.iso), ItemDicts(ItemsOf(actionItems, id), f.iso)))
    {
      var found := IndexOf(MeetingIds(meetings), id);
      if found.None? {
        return Failure(NotFound);
      }
      var meeting := meetings[found.value];
      var items := ItemsOf(actionItems, id);
      r := Success(MeetingView(MeetingToDict(meeting, f.iso), ItemDicts(items, f.iso)));
    }

    /** `update_meeting` (PUT /api/meetings/<id>). */
    method UpdateMeeting(id: int, data: MeetingPayload, f: Formats) returns (r: Result<MeetingDict, Error>)
      requires Valid()
      modifies this
      ensures Valid()
      ensures id !in MeetingIds(old(meetings)) ==> r == Failure(NotFound) && meetings == old(meetings)
      ensures forall k :: 0 <= k < |old(meetings)| && old(meetings)[k].id == id ==>
        && meetings == old(meetings)[k := Patched(old(meetings)[k], data)]
        && r == Success(MeetingToDict(meetings[k], f.iso))
      ensures actionItems == old(actionItems)
      ensures lastMeetingId == old(lastMeetingId) && lastItemId == old(lastItemId)
    {
      var found := IndexOf(MeetingIds(meetings), id);
      if found.None? {
        return Failure(NotFound);
      }
      var k := found.value;
      var meeting := PatchRow(meetings[k], data);
      MeetingsUpdate(meetings, k, meeting);
      meetings := meetings[k := meeting];
      r := Success(MeetingToDict(meeting, f.iso));
    }

    /** `delete_meeting` (DELETE /api/meetings/<id>): only the meeting row goes;
        its action items stay. */
    method DeleteMeeting(id: int) returns (r: Result<string, Error>)
      requires Valid()
      modifies this
      ensures Valid()
      ensures id !in MeetingIds(old(meetings)) ==> r == Failure(NotFound) && meetings == old(meetings)
      ensures forall k :: 0 <= k < |old(meetings)| && old(meetings)[k].id == id ==>
        && meetings == old(meetings)[..k] + old(meetings)[k + 1..]
        && r == Success(DeletedMessage)
      ensures id !in MeetingIds(meetings)
      ensures actionItems == old(actionItems)
      ensures lastMeetingId == old(lastMeetingId) && lastItemId == old(lastItemId)
    {
      var found := IndexOf(MeetingIds(meetings), id);
      if found.None? {
        return Failure(NotFound);
      }
      var k := found.value;
      MeetingsWithout(meetings, k);
      meetings := meetings[..k] + meetings[k + 1..];
      r := Success(DeletedMessage);
    }

    /** `update_action_item` (PUT /api/action-items/<id>). */
    method UpdateActionItem(id: int, data: ItemPayload, f: Formats) returns (r: Result<ItemDict, Error>)
      requires Valid()
      modifies this
      ensures Valid()
      ensures id !in ItemIds(old(actionItems)) ==> r == Failure(NotFound) && actionItems == old(actionItems)
      ensures forall k :: 0 <= k < |old(actionItems)| && old(actionItems)[k].id == id ==>
        && actionItems == old(actionItems)[k := ItemPatched(old(actionItems)[k], data)]
        && r == Success(ItemToDict(actionItems[k], f.iso))
      ensures meetings == old(meetings)
      ensures lastMeetingId == old(lastMeetingId) && lastItemId == old(lastItemId)
    {
      var found := IndexOf(ItemIds(actionItems), id);
      if found.None? {
        return Failure(NotFound);
      }
      var k := found.value;
      var item := actionItems[k];
      if data.status.Some? { item := item.(status := data.status.value); }
      if data.owner.Some? { item := item.(owner := data.owner.value); }
      ItemsUpdate(actionItems, k, item);
      actionItems := actionItems[k := item];
      r := Success(ItemToDict(item, f.iso));
    }

    /** `summarize_meeting` (POST /api/ai/summarize): overwrite the summary,
        merge the generated tags into the stored ones as a set, and add one
        action item per generated item. */
    method Summarize(meetingId: Option<int>, now: Timestamp, f: Formats)
      returns (r: Result<SummarizeResponse, Error>)
      requires Valid()
      modifies this
      ensures Valid()
      ensures meetingId.None? || meetingId.value !in MeetingIds(old(meetings)) ==>
        && r == Failure(NotFound)
        && meetings == old(meetings) && actionItems == old(actionItems) && lastItemId == old(lastItemId)
      ensures meetingId.Some? && meetingId.value in MeetingIds(old(meetings)) ==>
        var k := IndexOf(MeetingIds(old(meetings)), meetingId.value).value;
        && r.Success?
        && SummaryApplied(old(meetings), old(actionItems), old(lastItemId), k,
             AIService.Summarize(old(meetings)[k].rawNotes, now, f.clock), f.iso,
             meetings, actionItems, lastItemId, r.value)
      ensures lastMeetingId == old(lastMeetingId)
    {
      if meetingId.None? {
        return Failure(NotFound);
      }
      var found := IndexOf(MeetingIds(meetings), meetingId.value);
      if found.None? {
        return Failure(NotFound);
      }
      var k := found.value;
      var summary, newActionItems, newTags := AIService.SummarizeMeeting(meetings[k].rawNotes, now, f.clock);
      var response := ApplySummary(k, AIService.Summary(summary, newActionItems, newTags), f);
      r := Success(response);
    }

    /** Everything `summarize_meeting` does once the service has produced
        `s` for the meeting at position `k`. */
    method ApplySummary(k: nat, s: AIService.Summary, f: Formats) returns (response: SummarizeResponse)
      requires Valid() && k < |meetings|
      modifies this
      ensures Valid()
      ensures SummaryApplied(old(meetings), old(actionItems), old(lastItemId), k, s, f.iso,
                             meetings, actionItems, lastItemId, response)
      ensures lastMeetingId == old(lastMeetingId)
    {
      var meetingId := meetings[k].id;
      var updatedTags := RecordSummary(k, s.text, s.tags);
      var createdItems := AddGeneratedItems(meetingId, s.actionItems);
      response := SummarizeResponse(s.text, updatedTags, ItemDicts(createdItems, f.iso));
    }

    /** The part of `summarize_meeting` that updates the meeting row at
        position `k`: the summary is overwritten and the tags become the set
        union of the stored and the generated ones, listed once each. */
    method RecordSummary(k: nat, summary: string, newTags: seq<string>) returns (updatedTags: seq<string>)
      requires Valid() && k < |meetings|
      modifies this
      ensures Valid()
      ensures meetings == old(meetings)[k := old(meetings)[k].(aiSummary := summary, tags := WriteList(updatedTags))]
      ensures Elems(updatedTags) == MergedTags(old(meetings)[k].tags, newTags)
      ensures Distinct(updatedTags)
      ensures actionItems == old(actionItems)
      ensures lastMeetingId == old(lastMeetingId) && lastItemId == old(lastItemId)
    {
      var meeting := meetings[k];
      meeting := meeting.(aiSummary := summary);
      var currentTags := ReadList(meeting.tags);
      updatedTags := SetToSeq(Elems(currentTags + newTags));
      meeting := meeting.(tags := WriteList(updatedTags));
      MeetingsUpdate(meetings, k, meeting);
      meetings := meetings[k := meeting];
    }

    /** The loop of `summarize_meeting` that inserts one action-item row per
        generated item, for meeting `meetingId`. */
    method AddGeneratedItems(meetingId: int, newActionItems: seq<AIService.GeneratedItem>)
      returns (createdItems: seq<ActionItem>)
      requires Valid()
      modifies this
      ensures Valid()
      ensures createdItems == StoredItems(old(lastItemId) + 1, meetingId, newActionItems)
      ensures actionItems == old(actionItems) + createdItems
      ensures lastItemId == old(lastItemId) + |newActionItems|
      ensures meetings == old(meetings) && lastMeetingId == old(lastMeetingId)
    {
      ghost var firstId := lastItemId + 1;
      createdItems := [];
      for n := 0 to |newActionItems|
        invariant createdItems == StoredItems(firstId, meetingId, newActionItems[..n])
        invariant actionItems == old(actionItems) + createdItems
        invariant lastItemId == old(lastItemId) + n
        invariant Increasing(ItemIds(actionItems))
        invariant forall i :: 0 <= i < |actionItems| ==> actionItems[i].id <= lastItemId
        invariant meetings == old(meetings) && lastMeetingId == old(lastMeetingId)
      {
        var item := newActionItems[n];
        var newItem := ActionItem(lastItemId + 1, meetingId, item.description, item.owner, Some(item.dueDate), item.status);
        ItemsSnoc(actionItems, newItem);
        lastItemId := lastItemId + 1;
        actionItems := actionItems + [newItem];
        createdItems := createdItems + [newItem];
      }
      assert newActionItems[..|newActionItems|] == newActionItems;
    }

    /** `ask_ai` (POST /api/ai/ask): a missing or empty query is refused with
        "Query required" (status 400) before any meeting is read; otherwise
        the answer over all meetings. */
    method AskAi(query: Option<string>, f: Formats) returns (r: Result<string, Error>)
      requires Valid()
      ensures query.None? || query.value == "" ==> r == Failure(BadRequest(QueryRequired))
      ensures query.Some? && query.value != "" ==> r == Success(AIService.Answer(query.value, meetings, f.stamp))
    {
      if query.None? || query.value == "" {
        return Failure(BadRequest(QueryRequired));
      }
      var answer := AIService.AnswerQuery(query.value, meetings, f.stamp);
      r := Success(answer);
    }
  }
}
