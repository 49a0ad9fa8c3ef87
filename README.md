# Smart Meeting Assistant — a verified model of its backend core

Smart Meeting Assistant is a Flask app for meeting notes. Its backend keeps two
tables:

- **meetings**: title, time, participants, raw notes, an AI summary, tags and a
  call link;
- **action items**: each row belongs to one meeting.

A mock "AI" service does two jobs. It summarises a meeting's notes with
keyword-triggered sentences, action items and tags. It also answers free-text
questions with a keyword-substring search and a digest of at most five
meetings.

This project models three parts of that backend.

- **The service** (`ai_service.dfy`, module `AIService`):
  - `summarize_meeting` and `answer_query` are written as imperative methods
    that follow the source statement by statement;
  - each method is proved equal to a specification function;
  - the promised behaviour is stated on those functions and in lemmas: which
    sentences, items and tags appear and when, the relevance filter, the cap of
    five, the snippet truncation, and the fixed no-match message.
- **The request handlers** (`app.dfy`, module `App`):
  - the `MeetingStore` class keeps the two tables as sequences of rows in
    primary-key order, plus the key counters;
  - it has one method per handler: create, get, update and delete a meeting,
    update an action item, summarize, and ask;
  - each method states its whole new state, keeps the class invariant
    `Valid()`, and returns not-found or bad-request on the error paths.
- **The record types** (`models.dfy`, module `Models`):
  - `Meeting` and `ActionItem`, with their column defaults and `to_dict`;
  - `ListColumn` stands for the JSON-text list columns: `Unset` means NULL or
    an empty string, and `Stored(xs)` means `json.dumps(xs)`.

Three supporting modules:

- `text.dfy` (`Text`) models the Python string operations the code relies on:
  ASCII `lower`, whitespace `split`, the substring test, `join`, `str(n)`, and
  `list(set)`.
- `clock.dfy` (`Clock`) turns the wall clock into a `now` parameter and the
  date formatters into opaque functions.
- `basics.dfy` (`Basics`) holds `Option` and `Result`.

## Model

| member | source | states |
|---|---|---|
| AIService.SummarizeMeeting | backend/services/ai_service.py:6-45 | The step-by-step `+=` and append code returns exactly `Summarize(notes, now, clock)`. |
| AIService.Summarize | backend/services/ai_service.py:11-45 | Empty notes give exactly ("No notes provided to summarize.", [], []). Other notes give the header with the `%H:%M` clock followed by the summary sentences, the items of `GeneratedItems` (one or two) and the tags of `GeneratedTags` (two or three). |
| AIService.SummaryClauses | backend/services/ai_service.py:15-20 | The milestones sentence always comes first. The frontend sentence is present iff the lowercased notes contain "frontend", and the backend sentence iff they contain "backend". The frontend sentence precedes the backend one, and no sentence repeats. |
| AIService.SummaryTextHoldsClauses | backend/services/ai_service.py:15-20 | In the generated text, each present sentence sits at an exact offset: milestones right after the header, frontend next, backend after both. |
| AIService.SummaryTextShape | backend/services/ai_service.py:15-20 | The generated text equals header + milestones + optional frontend + optional backend sentence. |
| AIService.ConcatClauses | backend/services/ai_service.py:16-20 | The summary sentences joined together equal the milestones sentence followed by the optional frontend and backend sentences. |
| AIService.SummaryMentionsMilestones | backend/services/ai_service.py:16 | For non-empty notes, the summary contains "The team discussed key project milestones.". |
| AIService.GeneratedItems | backend/services/ai_service.py:23-38 | There are two items iff the notes contain "todo" or "action", otherwise one. The last item is always the follow-up by "Meeting Organizer", due one day after `now`. The pipeline review by "DevOps Team" comes first and is due two days after `now`. Every item is "pending". |
| AIService.GeneratedTags | backend/services/ai_service.py:41-43 | The tags start with ["meeting","update"]. "urgent" is present iff the notes contain it, there are three tags iff so, and none repeats. |
| Text.Lower | backend/services/ai_service.py:53 | The result has the same length, and each character is lowercased on its own. |
| Text.Split | backend/services/ai_service.py:54 | Every word is non-empty and holds no whitespace. Joined, the words are exactly the non-whitespace characters of the input. The word list is empty iff the input is blank. |
| Text.SplitIsMaximalRuns | backend/services/ai_service.py:54 | `split()` yields exactly the maximal runs of non-whitespace, in order. The k-th word is a maximal run at the k-th position, with whitespace or an end of the string on both sides. The positions strictly increase, and the words cover every visible character. |
| Text.SplitFromRuns | backend/services/ai_service.py:54 | The scanner's words are maximal runs of the partial word followed by the rest, at strictly increasing positions. |
| Text.SplitFrom | backend/services/ai_service.py:54 | For the scanner already holding a partial word: no word is empty or holds whitespace, and there is no word iff the partial word is empty and the rest is blank. |
| Text.SplitFromVisible | backend/services/ai_service.py:54 | The scanner's words joined are the partial word followed by the visible characters of the rest. |
| AIService.Relevant | backend/services/ai_service.py:55-63 | There are at most as many relevant meetings as inputs. Each one comes from the input and some keyword hits it. The result is empty iff no input meeting is hit. |
| AIService.RelevantPositions | backend/services/ai_service.py:57-63 | The positions kept are as many as the relevant meetings, lie within the input, and are strictly increasing. |
| AIService.RelevantAtPositions | backend/services/ai_service.py:57-63 | The j-th relevant meeting is the input meeting at the j-th kept position. |
| AIService.RelevantPositionsExact | backend/services/ai_service.py:57-63 | A position is kept iff the meeting there is relevant. |
| AIService.RelevantIsOrderedSelection | backend/services/ai_service.py:57-63 | The relevant list is the subsequence of all relevant meetings in input order: positions are strictly increasing, and a position is picked iff its meeting is hit. |
| AIService.FilterRelevant | backend/services/ai_service.py:55-63 | The first loop yields exactly `Relevant(keywords, meetings)`. |
| AIService.Snippet | backend/services/ai_service.py:74-81 | Text that fits is returned unchanged. Longer text becomes its first `limit` characters followed by "...", `limit`+3 characters in all. |
| AIService.Shown | backend/services/ai_service.py:70 | The shown meetings are a prefix of the relevant ones, of length min(5, n). |
| AIService.Digest | backend/services/ai_service.py:69-85 | The digest opens with "I found n relevant meeting(s):", where n is the full count even when it exceeds five. It never equals the no-match message. |
| AIService.DigestBlocks | backend/services/ai_service.py:69-83 | The digest is the header followed by exactly the blocks of the first min(5, n) relevant meetings, in order. |
| AIService.DigestEntries | backend/services/ai_service.py:70-83 | There is one block per shown meeting, in order. |
| AIService.RenderEntry | backend/services/ai_service.py:71-83 | The line-by-line `+=` builds the block of `DigestEntry`: title and time, a notes line only when the notes are non-empty (snippet of 150), and a summary line only when the summary is non-empty (snippet of 100). |
| AIService.RenderDigest | backend/services/ai_service.py:68-85 | The second loop yields exactly `Digest(relevant, stamp)`. |
| AIService.Answer | backend/services/ai_service.py:53-85 | The answer is the fixed "I couldn't find any meetings..." message iff no meeting is relevant to any keyword of the query. |
| AIService.BlankQueryFindsNothing | backend/services/ai_service.py:53-66 | A whitespace-only query has no keywords and always gets the no-match message. |
| AIService.AnswerQuery | backend/services/ai_service.py:48-85 | The method returns exactly `Answer(query, meetings, stamp)`. |
| Text.NatToString | backend/services/ai_service.py:69 | `str(n)` is non-empty, made of digits, and has no leading zero. |
| Text.NatToStringRoundTrip | backend/services/ai_service.py:69 | The count in the digest header reads back as n: `int(str(n)) == n`. |
| Text.SetToSeq | backend/app.py:127 | `list(set)` lists every element of the set exactly once: same elements, no repeats, same size. |
| Models.ReadList | backend/models.py:21 | A NULL or empty list column reads as []. |
| Models.WriteList | backend/models.py:24 | A list written to a column reads back as the same list. |
| Models.NewMeeting | backend/models.py:5-14 | A new meeting has participants [], notes "", summary "", tags [] and link "", and both timestamps are the insertion time. |
| Models.NewActionItem | backend/models.py:29-35 | A new action item has owner "Unassigned", status "pending" and no due date. |
| Models.MeetingToDict | backend/models.py:16-27 | `datetime` is null iff unset and otherwise its ISO text. An unset list reads as [] and a stored one as its items. The text fields are copied. |
| Models.ItemToDict | backend/models.py:37-45 | `due_date` is null iff unset and otherwise its ISO text. The other fields are copied. |
| Models.NewMeetingReadsBack | backend/models.py:9-27 | A fresh meeting's `to_dict` shows empty lists, empty texts and its insertion time. |
| Models.WrittenTagsReadBack | backend/models.py:21-24 | Tags or participants written by a handler come back unchanged through `to_dict`. |
| App.IndexOf | backend/app.py:74 | `get_or_404` looks a key up: not found iff the key is absent, otherwise the position of its first row. |
| App.CreatedMeeting | backend/app.py:47-57 | An absent key takes its default: title "Untitled Meeting", participants [], notes "" and tags []. The summary and the link start empty, and both timestamps are `now`. |
| App.BuildMeeting | backend/app.py:47-57 | The handler's construction yields exactly `CreatedMeeting`. |
| App.MeetingStore.CreateMeeting | backend/app.py:44-61 | The new row with the next key is appended. Nothing else changes, and the response is its `to_dict`. |
| App.ItemsOf | backend/app.py:67 | `filter_by(meeting_id=id)` keeps only rows of that meeting and every row of it, and never more rows than the table has. |
| App.ItemPositions | backend/app.py:67 | The positions kept are as many as the rows returned, lie within the table, and strictly increase. |
| App.ItemsAtPositions | backend/app.py:67 | The j-th returned row is the table row at the j-th kept position. |
| App.ItemPositionsExact | backend/app.py:67 | A position is kept iff the row there has that `meeting_id`. |
| App.ItemsOfIsOrderedSelection | backend/app.py:67 | The result is exactly the in-order subsequence of the meeting's rows, with each row appearing as often as in the table. |
| App.ItemDicts | backend/app.py:69 | One `to_dict` per item, in order. |
| App.MeetingStore.GetMeeting | backend/app.py:63-70 | An unknown key gives not-found. A known one gives the meeting's `to_dict` with the dicts of exactly its action items. |
| App.Patched | backend/app.py:77-85 | Each of title, raw notes, summary, link, participants and tags takes the payload value iff its key is present. A present list replaces the stored one wholesale. The id and both timestamps never change, and an empty payload changes nothing. |
| App.PatchRow | backend/app.py:77-85 | The six guarded assignments yield exactly `Patched`. |
| App.MeetingStore.UpdateMeeting | backend/app.py:72-88 | An unknown key gives not-found and leaves the store unchanged. Otherwise the row is replaced by its patched version, every other row and the action items stay as they were, and the response is the new `to_dict`. |
| App.MeetingStore.DeleteMeeting | backend/app.py:90-95 | An unknown key gives not-found and leaves the store unchanged. Otherwise exactly that row goes, its key is no longer present, the action-item table is untouched, and the response is "Meeting deleted". |
| App.ItemPatched | backend/app.py:107-108 | `status` and `owner` change only when present, and status is not checked against an enum. Nothing else changes. |
| App.MeetingStore.UpdateActionItem | backend/app.py:103-110 | An unknown key gives not-found and leaves the store unchanged. Otherwise that item is replaced by `ItemPatched`, the meetings are unchanged, and the response is its `to_dict`. |
| App.MergedTags | backend/app.py:125-127 | The merged tag set is the union of the stored tags (an unset column reads as none) and the generated ones. |
| App.MergeTwiceIsMergeOnce | backend/app.py:125-128 | Merging the same generated tags into an already merged list changes nothing. |
| App.StoredItems | backend/app.py:131-140 | One row per generated item, with consecutive fresh keys and the meeting's id. Description, owner, due date and status are copied from the item. |
| App.MeetingStore.Summarize | backend/app.py:113-149 | A missing or unknown meeting id gives not-found and leaves the store unchanged. Otherwise `SummaryApplied` holds for the service's output on that meeting's notes: the summary is overwritten, the tags become the union listed once each, one action item is added per generated item, and the response repeats the summary, the tags and the new items. |
| App.MeetingStore.ApplySummary | backend/app.py:121-149 | Given the service's output, the tables change exactly as `SummaryApplied` says. |
| App.MeetingStore.RecordSummary | backend/app.py:121-128 | Only the meeting's summary and tags change. The new tag list has no repeats and its elements are the union. |
| App.MeetingStore.AddGeneratedItems | backend/app.py:131-141 | The loop appends exactly `StoredItems` and advances the item key by the number of generated items. The meetings are unchanged. |
| App.RepeatedSummary | backend/app.py:113-141 | Two summarize calls on one meeting, at any two clock readings. The first call leaves the notes alone, so the second proposes the same tags and as many items; only the header time and the due dates may differ. The second call leaves the tag set as the first made it, and leaves every other meeting as it was. The item table keeps the first call's rows and grows again by the same number, at least one when the notes are non-empty. |
| App.MeetingStore.AskAi | backend/app.py:151-161 | A missing or empty query gives "Query required" (400) without reading the meetings. Otherwise the answer is `Answer(query, meetings)`. |

## Left out

- WebRTC signaling (`backend/app.py:164-186`): it is delivered by flask_socketio rooms to concurrent connections, and it has no state of its own to model.
- Flask routing, static serving and the SQLAlchemy session: the tables are in-memory sequences, and a commit is the assignment to the field.
- Primary keys come from a counter and are never reused. SQLite may hand the largest rowid out again after a delete. `delete_meeting` leaves the meeting's action items in place (`backend/app.py:93`), so the next meeting created could then show those orphaned items through `get_meeting` (`backend/app.py:67`). The model cannot show this: a deleted key is never reused, and an orphaned item stays unreachable from any later meeting. Whether it happens depends on the database engine, which is not part of this model.
- `Model.query.all()` and `filter_by(...).all()` are taken to return rows in insertion order, which is key order.
- `get_meetings` (ordering by datetime descending) and `get_action_items` (listing all items) are not modelled: both are single ORM queries outside the modelled handlers.
- `datetime.now()`: every call in one operation is read as one `now` parameter. The source reads the clock separately for the summary header and for each due date, and for `datetime` and `created_at` on insertion.
- `strftime` and `isoformat` are opaque functions passed in through `Clock.Formats`. `fromisoformat(isoformat(t))` is taken to be `t`.
- Text.Lower, Text.Split: ASCII only. Python's Unicode case mapping and Unicode whitespace are not modelled.
- `json.dumps`/`json.loads` of list columns are not modelled: a column holds the list itself, and a NULL or empty-string column is `Unset`.
- Text.SetToSeq: the order of `list(set(...))` is left unspecified (Python's hash order), so only the element set, its size and distinctness are stated.
- AIService.Answer, AIService.AnswerQuery: these require every meeting to have a datetime. The source would raise on `strftime` of a NULL datetime. `MeetingStore.Valid()` keeps this true for every stored row, since creation always sets the datetime and no handler clears it.
- AIService.SummaryClauses: the "iff" is stated over the list of sentences, not as a substring test on the whole summary text. The header embeds the opaque clock text, which could itself contain a sentence.
- A payload field of the wrong JSON type (a title that is `null`, a non-list `tags`, a non-integer `meeting_id`) is not modelled: payload fields are typed. The `nullable=False` column checks and the foreign key are not checked by the handlers and are not modelled.
- The HTTP status codes appear only as `App.StatusCode` (404 not-found, 400 bad request). Success responses carry no code.
