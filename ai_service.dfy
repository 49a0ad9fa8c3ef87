/** The mock "AI" of backend/services/ai_service.py: keyword-triggered
    summarisation and the keyword-substring retrieval behind "ask AI".
    Each method follows the source statement by statement and is proved
    equal to a specification function; the properties the service promises
    are stated on those functions and in lemmas. */
module AIService {
  import opened Basics
  import opened Clock
  import opened Text
  import opened Models

  // ---------------------------------------------------------------- summarize

  const NoNotesSummary := "No notes provided to summarize."
  const MilestonesClause := "The team discussed key project milestones. "
  const FrontendClause := "Frontend implementation details were reviewed. "
  const BackendClause := "Backend architecture was finalized. "

  const ReviewDescription := "Review the deployment pipeline"
  const ReviewOwner := "DevOps Team"
  const FollowUpDescription := "Follow up on meeting points"
  const FollowUpOwner := "Meeting Organizer"

  /** First line of every generated summary; `clock` is the `%H:%M` time. */
  function SummaryHeader(clock: string): string {
    "Meeting Summary (Generated " + clock + "):\n"
  }

  /** `keyword in raw_notes.lower()` */
  predicate Mentions(notes: string, keyword: string) {
    Contains(Lower(notes), keyword)
  }

  /** An action item as the service proposes it, before it is stored. */
  datatype GeneratedItem = GeneratedItem(description: string, owner: string, dueDate: Timestamp, status: string)

  /** The service's output triple. */
  datatype Summary = Summary(text: string, actionItems: seq<GeneratedItem>, tags: seq<string>)

  /** The sentences after the header, in order. The milestones sentence is
      always first; the frontend sentence is there iff the notes mention
      "frontend", the backend one iff they mention "backend", and the
      frontend sentence comes first when both are there. */
  function SummaryClauses(notes: string): (cs: seq<string>)
    ensures 1 <= |cs| <= 3 && cs[0] == MilestonesClause
    ensures FrontendClause in cs <==> Mentions(notes, "frontend")
    ensures BackendClause in cs <==> Mentions(notes, "backend")
    ensures forall i, j :: 0 <= i < |cs| && 0 <= j < |cs| && cs[i] == FrontendClause && cs[j] == BackendClause ==> i < j
    ensures Distinct(cs)
  {
    [MilestonesClause]
    + (if Mentions(notes, "frontend") then [FrontendClause] else [])
    + (if Mentions(notes, "backend") then [BackendClause] else [])
  }

  /** The proposed action items: the pipeline review (due in two days) iff the
      notes mention "todo" or "action", then always the follow-up (due in one
      day); all pending. */
  function GeneratedItems(notes: string, now: Timestamp): (items: seq<GeneratedItem>)
    ensures |items| == (if Mentions(notes, "todo") || Mentions(notes, "action") then 2 else 1)
    ensures items[|items| - 1] == GeneratedItem(FollowUpDescription, FollowUpOwner, AddDays(now, 1), PendingStatus)
    ensures |items| == 2 ==> items[0] == GeneratedItem(ReviewDescription, ReviewOwner, AddDays(now, 2), PendingStatus)
    ensures forall k :: 0 <= k < |items| ==> items[k].status == PendingStatus
  {
    (if Mentions(notes, "todo") || Mentions(notes, "action")
     then [GeneratedItem(ReviewDescription, ReviewOwner, AddDays(now, 2), PendingStatus)]
     else [])
    + [GeneratedItem(FollowUpDescription, FollowUpOwner, AddDays(now, 1), PendingStatus)]
  }

  /** The proposed tags: "meeting" and "update", then "urgent" iff the notes
      mention it; never a duplicate. */
  function GeneratedTags(notes: string): (tags: seq<string>)
    ensures |tags| >= 2 && tags[..2] == ["meeting", "update"]
    ensures "urgent" in tags <==> Mentions(notes, "urgent")
    ensures |tags| == (if Mentions(notes, "urgent") then 3 else 2)
    ensures Distinct(tags)
  {
    ["meeting", "update"] + (if Mentions(notes, "urgent") then ["urgent"] else [])
  }

  /** `summarize_meeting(raw_notes)` with the clock read as `now`. */
  function Summarize(notes: string, now: Timestamp, clock: Timestamp -> string): (s: Summary)
    ensures notes == "" ==> s == Summary(NoNotesSummary, [], [])
    ensures notes != "" ==> s.text == SummaryHeader(clock(now)) + Concat(SummaryClauses(notes))
    ensures notes != "" ==> s.actionItems == GeneratedItems(notes, now) && s.tags == GeneratedTags(notes)
    ensures notes != "" ==> 1 <= |s.actionItems| <= 2 && 2 <= |s.tags| <= 3
  {
    if notes == "" then Summary(NoNotesSummary, [], [])
    else Summary(SummaryHeader(clock(now)) + Concat(SummaryClauses(notes)),
                 GeneratedItems(notes, now),
                 GeneratedTags(notes))
  }

  /** The generated summary contains the milestones sentence right after
      the header, the frontend sentence right after that when the notes
      mention "frontend", and the backend sentence after both when they
      mention "backend". */
  lemma SummaryTextHoldsClauses(notes: string, now: Timestamp, clock: Timestamp -> string)
    requires notes != ""
    ensures var text := Summarize(notes, now, clock).text;
      var h := |SummaryHeader(clock(now))| + |MilestonesClause|;
      && OccursAt(text, MilestonesClause, |SummaryHeader(clock(now))|)
      && (Mentions(notes, "frontend") ==> OccursAt(text, FrontendClause, h))
      && (Mentions(notes, "backend") ==>
            OccursAt(text, BackendClause, h + if Mentions(notes, "frontend") then |FrontendClause| else 0))
  {
    var f := if Mentions(notes, "frontend") then FrontendClause else "";
    var b := if Mentions(notes, "backend") then BackendClause else "";
    SummaryTextShape(notes, now, clock);
    OccursInFour(SummaryHeader(clock(now)), MilestonesClause, f, b);
  }

  /** The generated summary spelled out: header, then the sentences. */
  lemma SummaryTextShape(notes: string, now: Timestamp, clock: Timestamp -> string)
    requires notes != ""
    ensures Summarize(notes, now, clock).text ==
      SummaryHeader(clock(now)) + MilestonesClause
      + (if Mentions(notes, "frontend") then FrontendClause else "")
      + (if Mentions(notes, "backend") then BackendClause else "")
  {
    ConcatClauses(notes);
  }

  /** For non-empty notes the summary always contains the milestones sentence. */
  lemma SummaryMentionsMilestones(notes: string, now: Timestamp, clock: Timestamp -> string)
    requires notes != ""
    ensures Contains(Summarize(notes, now, clock).text, MilestonesClause)
  {
    SummaryTextHoldsClauses(notes, now, clock);
    var text := Summarize(notes, now, clock).text;
    var h: nat := |SummaryHeader(clock(now))|;
    assert h <= |text| && OccursAt(text, MilestonesClause, h);
  }

  /** `AIService.summarize_meeting`, with the clock passed in. */
  method SummarizeMeeting(rawNotes: string, now: Timestamp, clock: Timestamp -> string)
    returns (summary: string, actionItems: seq<GeneratedItem>, tags: seq<string>)
    ensures Summary(summary, actionItems, tags) == Summarize(rawNotes, now, clock)
  {
    if rawNotes == "" {
      return NoNotesSummary, [], [];
    }
    summary := SummaryHeader(clock(now));
    summary := summary + MilestonesClause;
    if Contains(Lower(rawNotes), "frontend") {
      summary := summary + FrontendClause;
    }
    if Contains(Lower(rawNotes), "backend") {
      summary := summary + BackendClause;
    }
    SummaryTextShape(rawNotes, now, clock);
    assert summary == Summarize(rawNotes, now, clock).text;

    actionItems := [];
    if Contains(Lower(rawNotes), "todo") || Contains(Lower(rawNotes), "action") {
      actionItems := actionItems + [GeneratedItem(ReviewDescription, ReviewOwner, AddDays(now, 2), PendingStatus)];
    }
    actionItems := actionItems + [GeneratedItem(FollowUpDescription, FollowUpOwner, AddDays(now, 1), PendingStatus)];
    assert actionItems == Summarize(rawNotes, now, clock).actionItems;

    tags := ["meeting", "update"];
    if Contains(Lower(rawNotes), "urgent") {
      tags := tags + ["urgent"];
    }
    assert tags == Summarize(rawNotes, now, clock).tags;
  }

  /** The summary sentences joined, spelled out clause by clause. */
  lemma ConcatClauses(notes: string)
    ensures Concat(SummaryClauses(notes)) ==
      MilestonesClause
      + (if Mentions(notes, "frontend") then FrontendClause else "")
      + (if Mentions(notes, "backend") then BackendClause else "")
  {
    var cs := SummaryClauses(notes);
    var f := if Mentions(notes, "frontend") then [FrontendClause] else [];
    var b := if Mentions(notes, "backend") then [BackendClause] else [];
    ConcatAppend([MilestonesClause], FrontendClause);
    ConcatAppend([MilestonesClause] + f, BackendClause);
    assert Concat([MilestonesClause]) == MilestonesClause + Concat([]);
  }

  // ------------------------------------------------------------- answer_query

  const NoMatchAnswer := "I couldn't find any meetings related to your query. Try asking about specific topics discussed in your meetings, or create some meetings first!"
  const DigestLimit := 5
  const NotesSnippetLength := 150
  const SummarySnippetLength := 100

  /** `query.lower().split()` */
  function Keywords(query: string): seq<string> {
    Split(Lower(query))
  }

  /** The lowercased text a meeting is searched in. */
  function SearchText(m: Meeting): string {
    Lower(m.title + " " + m.rawNotes + " " + m.aiSummary)
  }

  /** `any(keyword in content for keyword in keywords)` */
  predicate IsRelevant(keywords: seq<string>, m: Meeting) {
    exists k | k in keywords :: Contains(SearchText(m), k)
  }

  /** The relevant meetings, in input order. */
  function Relevant(keywords: seq<string>, ms: seq<Meeting>): (r: seq<Meeting>)
    ensures |r| <= |ms|
    ensures forall j :: 0 <= j < |r| ==> r[j] in ms && IsRelevant(keywords, r[j])
    ensures r == [] <==> forall i :: 0 <= i < |ms| ==> !IsRelevant(keywords, ms[i])
  {
    if ms == [] then []
    else
      var init, last := ms[..|ms| - 1], ms[|ms| - 1];
      assert forall i :: 0 <= i < |init| ==> init[i] == ms[i];
      Relevant(keywords, init) + (if IsRelevant(keywords, last) then [last] else [])
  }

  /** The positions in `ms` of the meetings `Relevant` keeps, increasing. */
  ghost function RelevantPositions(keywords: seq<string>, ms: seq<Meeting>): (pos: seq<nat>)
    ensures |pos| == |Relevant(keywords, ms)|
    ensures forall j :: 0 <= j < |pos| ==> pos[j] < |ms|
    ensures forall j, k :: 0 <= j < k < |pos| ==> pos[j] < pos[k]
  {
    if ms == [] then []
    else RelevantPositions(keywords, ms[..|ms| - 1])
         + (if IsRelevant(keywords, ms[|ms| - 1]) then [|ms| - 1] else [])
  }

  /** `Relevant` keeps the meetings at `RelevantPositions`, in that order. */
  lemma {:induction false} RelevantAtPositions(keywords: seq<string>, ms: seq<Meeting>)
    ensures forall j :: 0 <= j < |Relevant(keywords, ms)| ==>
      Relevant(keywords, ms)[j] == ms[RelevantPositions(keywords, ms)[j]]
  {
    if ms != [] {
      var init, last := ms[..|ms| - 1], ms[|ms| - 1];
      RelevantAtPositions(keywords, init);
      assert ms == init + [last];
      SelectionSnoc(init, last, Relevant(keywords, init), RelevantPositions(keywords, init), IsRelevant(keywords, last));
    }
  }

  /** A position is kept iff the meeting there is relevant. */
  lemma {:induction false} RelevantPositionsExact(keywords: seq<string>, ms: seq<Meeting>)
    ensures forall i :: 0 <= i < |ms| ==> (i in RelevantPositions(keywords, ms) <==> IsRelevant(keywords, ms[i]))
  {
    if ms != [] {
      var init := ms[..|ms| - 1];
      RelevantPositionsExact(keywords, init);
      assert forall i :: 0 <= i < |init| ==> init[i] == ms[i];
    }
  }

  /** `Relevant` is exactly the subsequence of the relevant meetings: it picks
      positions of `ms` in increasing order, and a position is picked iff the
      meeting there is relevant. */
  lemma RelevantIsOrderedSelection(keywords: seq<string>, ms: seq<Meeting>)
    ensures var r, pos := Relevant(keywords, ms), RelevantPositions(keywords, ms);
      && |pos| == |r|
      && (forall j :: 0 <= j < |pos| ==> pos[j] < |ms| && r[j] == ms[pos[j]])
      && (forall j, k :: 0 <= j < k < |pos| ==> pos[j] < pos[k])
      && (forall i :: 0 <= i < |ms| ==> (i in pos <==> IsRelevant(keywords, ms[i])))
  {
    RelevantAtPositions(keywords, ms);
    RelevantPositionsExact(keywords, ms);
  }

  /** Python's `text[:limit] + "..." if len(text) > limit else text`: the text
      itself when it fits, otherwise its first `limit` characters and an
      ellipsis. */
  function Snippet(text: string, limit: nat): (r: string)
    ensures |text| <= limit ==> r == text
    ensures |text| > limit ==> |r| == limit + 3 && r[..limit] == text[..limit] && r[limit..] == "..."
  {
    if |text| > limit then text[..limit] + "..." else text
  }

  /** First line of a digest: the number of relevant meetings. */
  function FoundHeader(count: nat): string {
    "I found " + NatToString(count) + " relevant meeting(s):\n\n"
  }

  /** One meeting's block in the digest: title and time, then the notes
      snippet and the summary snippet when those texts are non-empty. */
  function DigestEntry(m: Meeting, stamp: Timestamp -> string): string
    requires m.datetime.Some?
  {
    "\U{1F4C5} **" + m.title + "** (" + stamp(m.datetime.value) + ")\n"
    + (if m.rawNotes != "" then "   Notes: " + Snippet(m.rawNotes, NotesSnippetLength) + "\n" else "")
    + (if m.aiSummary != "" then "   Summary: " + Snippet(m.aiSummary, SummarySnippetLength) + "\n" else "")
    + "\n"
  }

  predicate AllDated(ms: seq<Meeting>) {
    forall i :: 0 <= i < |ms| ==> ms[i].datetime.Some?
  }

  function DigestEntries(ms: seq<Meeting>, stamp: Timestamp -> string): (es: seq<string>)
    requires AllDated(ms)
    ensures |es| == |ms|
    ensures forall k :: 0 <= k < |ms| ==> es[k] == DigestEntry(ms[k], stamp)
  {
    seq(|ms|, k requires 0 <= k < |ms| => DigestEntry(ms[k], stamp))
  }

  function Min(a: int, b: int): int {
    if a <= b then a else b
  }

  /** The meetings the digest shows: the first five relevant ones. */
  function Shown(relevant: seq<Meeting>): (shown: seq<Meeting>)
    ensures |shown| == Min(DigestLimit, |relevant|)
    ensures shown <= relevant
  {
    relevant[..Min(DigestLimit, |relevant|)]
  }

  /** The digest for a non-empty list of relevant meetings: a header with
      their full count, then one block for each of the first five. It opens
      with the header, and it is never the guidance message. */
  function Digest(relevant: seq<Meeting>, stamp: Timestamp -> string): (d: string)
    requires relevant != [] && AllDated(relevant)
    ensures var h := FoundHeader(|relevant|); |h| <= |d| && d[..|h|] == h
    ensures d != NoMatchAnswer
  {
    var shown := Shown(relevant);
    var entries := DigestEntries(shown, stamp);
    var d := FoundHeader(|relevant|) + Concat(entries);
    assert entries == entries[..|entries| - 1] + [entries[|entries| - 1]];
    ConcatAppend(entries[..|entries| - 1], entries[|entries| - 1]);
    assert d[|d| - 1] == '\n';
    d
  }

  /** The digest is the header with the full count followed by exactly the
      blocks of the first min(5, n) relevant meetings, in their order. */
  lemma DigestBlocks(relevant: seq<Meeting>, stamp: Timestamp -> string, blocks: seq<string>)
    requires relevant != [] && AllDated(relevant)
    requires |blocks| == Min(DigestLimit, |relevant|)
    requires forall k :: 0 <= k < |blocks| ==> blocks[k] == DigestEntry(relevant[k], stamp)
    ensures Digest(relevant, stamp) == FoundHeader(|relevant|) + Concat(blocks)
  {
    assert blocks == DigestEntries(Shown(relevant), stamp);
  }

  /** `answer_query(query, all_meetings)`. The fixed guidance answer comes
      back iff no meeting is relevant to any keyword; otherwise the digest of
      the relevant meetings, in input order. */
  function Answer(query: string, ms: seq<Meeting>, stamp: Timestamp -> string): (a: string)
    requires AllDated(ms)
    ensures a == NoMatchAnswer <==> forall i :: 0 <= i < |ms| ==> !IsRelevant(Keywords(query), ms[i])
  {
    var r := Relevant(Keywords(query), ms);
    if r == [] then NoMatchAnswer else Digest(r, stamp)
  }

  /** A blank query has no keywords, so nothing is relevant and the answer is
      the fixed guidance message. */
  lemma BlankQueryFindsNothing(query: string, ms: seq<Meeting>, stamp: Timestamp -> string)
    requires AllDated(ms)
    requires AllSpace(query)
    ensures Keywords(query) == []
    ensures Answer(query, ms, stamp) == NoMatchAnswer
  {
    assert AllSpace(Lower(query));
  }

  /** The first loop of `answer_query`: keep the meetings some keyword hits. */
  method FilterRelevant(keywords: seq<string>, allMeetings: seq<Meeting>) returns (relevant: seq<Meeting>)
    ensures relevant == Relevant(keywords, allMeetings)
  {
    relevant := [];
    for i := 0 to |allMeetings|
      invariant relevant == Relevant(keywords, allMeetings[..i])
    {
      var meeting := allMeetings[i];
      var content := Lower(meeting.title + " " + meeting.rawNotes + " " + meeting.aiSummary);
      assert content == SearchText(meeting);
      assert allMeetings[..i + 1][..i] == allMeetings[..i];
      if exists keyword | keyword in keywords :: Contains(content, keyword) {
        relevant := relevant + [meeting];
      }
    }
    assert allMeetings[..|allMeetings|] == allMeetings;
  }

  /** One meeting's block, built line by line as the second loop does. */
  method RenderEntry(m: Meeting, stamp: Timestamp -> string) returns (block: string)
    requires m.datetime.Some?
    ensures block == DigestEntry(m, stamp)
  {
    block := "\U{1F4C5} **" + m.title + "** (" + stamp(m.datetime.value) + ")\n";
    if m.rawNotes != "" {
      var snippet := if |m.rawNotes| > NotesSnippetLength then m.rawNotes[..NotesSnippetLength] + "..." else m.rawNotes;
      block := block + ("   Notes: " + snippet + "\n");
    }
    if m.aiSummary != "" {
      var summarySnippet := if |m.aiSummary| > SummarySnippetLength then m.aiSummary[..SummarySnippetLength] + "..." else m.aiSummary;
      block := block + ("   Summary: " + summarySnippet + "\n");
    }
    block := block + "\n";
  }

  /** The blocks of one more shown meeting, joined. */
  lemma DigestStep(shown: seq<Meeting>, j: nat, stamp: Timestamp -> string)
    requires j < |shown| && AllDated(shown)
    ensures Concat(DigestEntries(shown[..j + 1], stamp))
         == Concat(DigestEntries(shown[..j], stamp)) + DigestEntry(shown[j], stamp)
  {
    assert DigestEntries(shown[..j + 1], stamp) == DigestEntries(shown[..j], stamp) + [DigestEntry(shown[j], stamp)];
    ConcatAppend(DigestEntries(shown[..j], stamp), DigestEntry(shown[j], stamp));
  }

  /** The second loop of `answer_query`: the header, then the blocks of the
      first five relevant meetings. */
  method RenderDigest(relevant: seq<Meeting>, stamp: Timestamp -> string) returns (response: string)
    requires relevant != [] && AllDated(relevant)
    ensures response == Digest(relevant, stamp)
  {
    var header := "I found " + NatToString(|relevant|) + " relevant meeting(s):\n\n";
    response := header;
    var shown := relevant[..Min(DigestLimit, |relevant|)];
    ghost var body := "";
    for j := 0 to |shown|
      invariant body == Concat(DigestEntries(shown[..j], stamp))
      invariant response == header + body
    {
      var block := RenderEntry(shown[j], stamp);
      DigestStep(shown, j, stamp);
      AppendAssoc(header, body, block);
      response := response + block;
      body := body + block;
    }
    assert shown[..|shown|] == shown;
  }

  /** `AIService.answer_query`. */
  method AnswerQuery(query: string, allMeetings: seq<Meeting>, stamp: Timestamp -> string)
    returns (answer: string)
    requires AllDated(allMeetings)
    ensures answer == Answer(query, allMeetings, stamp)
  {
    var queryLower := Lower(query);
    var keywords := Split(queryLower);
    var relevant := FilterRelevant(keywords, allMeetings);
    if relevant == [] {
      return NoMatchAnswer;
    }
    answer := RenderDigest(relevant, stamp);
  }
}
