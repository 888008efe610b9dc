/** The chat application's HistorySummarizationService: every four conversation
    messages are folded into one running summary, a system message flagged
    isSummary in its metadata. */
module ChatSummary {
  import opened Wrappers
  import opened Strings
  import opened JavaInt
  import opened ChatHistory

  const Threshold: Int32 := 4
  const SummaryPrefix := "Previous conversation summary: "

  /** isSummary: the metadata maps "isSummary" to Boolean.TRUE. */
  predicate IsSummary(m: Message) {
    m.metadata.Some? && "isSummary" in m.metadata.value && m.metadata.value["isSummary"] == MBool(true)
  }

  /** The messages the summariser counts: conversation that is not a summary. */
  predicate Counted(m: Message) {
    IsConversational(m) && !IsSummary(m)
  }

  /** The system messages kept when the history is rebuilt. */
  predicate KeptSystem(m: Message) {
    IsSystem(m) && !IsSummary(m)
  }

  /** needsSummarization: a history with at least four counted messages. */
  function NeedsSummarization(history: Option<seq<Message>>): (r: bool)
    ensures history.None? ==> !r
    ensures history.Some? ==> (r <==> |Filter(Counted, history.value)| >= 4)
  {
    history.Some? && |Filter(Counted, history.value)| >= Threshold as int
  }

  /** The first message flagged as a summary. */
  function FirstSummary(h: seq<Message>): (r: Option<Message>)
    ensures r.Some? ==> IsSummary(r.value) && r.value in h
    ensures r.None? ==> forall i :: 0 <= i < |h| ==> !IsSummary(h[i])
    decreases |h|
  {
    if h == [] then None
    else if IsSummary(h[0]) then Some(h[0])
    else FirstSummary(h[1..])
  }

  /** What FirstSummary finds is the flagged message that comes first. */
  lemma {:induction false} FirstSummaryAt(h: seq<Message>, n: nat)
    requires n < |h| && IsSummary(h[n])
    requires forall i :: 0 <= i < n ==> !IsSummary(h[i])
    ensures FirstSummary(h) == Some(h[n])
    decreases n
  {
    if n > 0 {
      FirstSummaryAt(h[1..], n - 1);
    }
  }

  /** findExistingSummary: None (null) for a missing history. */
  function FindExistingSummary(history: Option<seq<Message>>): (r: Option<Message>)
    ensures history.None? ==> r.None?
    ensures history.Some? ==> r == FirstSummary(history.value)
  {
    if history.None? then None else FirstSummary(history.value)
  }

  /** extractSummaryContent: the content without the summary prefix, when it has one. */
  function ExtractSummaryContent(m: Message): (r: Option<string>)
    ensures m.content.None? ==> r.None?
    ensures m.content.Some? && StartsWith(m.content.value, SummaryPrefix) ==>
              r == Some(m.content.value[|SummaryPrefix|..]) && SummaryPrefix + r.value == m.content.value
    ensures m.content.Some? && !StartsWith(m.content.value, SummaryPrefix) ==> r == m.content
  {
    match m.content
    case None => None
    case Some(c) => if StartsWith(c, SummaryPrefix) then Some(c[|SummaryPrefix|..]) else Some(c)
  }

  /** The totalMessagesSummarized counter of an existing summary, when it is an Integer; 0 otherwise. */
  function PreviouslySummarized(existing: Option<Message>): Int32 {
    if existing.Some? && existing.value.metadata.Some?
       && "totalMessagesSummarized" in existing.value.metadata.value
       && existing.value.metadata.value["totalMessagesSummarized"].MInt?
    then existing.value.metadata.value["totalMessagesSummarized"].i
    else 0
  }

  /** The next updateCount: 1 without an existing summary, else the old count (0 when
      absent) plus one; a count that is null or not an Integer makes the cast throw. */
  function NextUpdateCount(existing: Option<Message>): (r: Result<Int32, string>)
    ensures existing.None? ==> r == Success(1)
    ensures existing.Some? && existing.value.metadata.None? ==> r == Failure("NullPointerException")
    ensures existing.Some? && existing.value.metadata.Some? && "updateCount" !in existing.value.metadata.value ==>
              r == Success(1)
    ensures existing.Some? && existing.value.metadata.Some? && "updateCount" in existing.value.metadata.value ==>
              var v := existing.value.metadata.value["updateCount"];
              && (v.MInt? ==> r == Success(AddInt32(v.i, 1)))
              && (v.MNull? ==> r == Failure("NullPointerException"))
              && (!v.MInt? && !v.MNull? ==> r == Failure("ClassCastException"))
  {
    match existing
    case None => Success(1)
    case Some(m) =>
      if m.metadata.None? then Failure("NullPointerException")
      else
        var v := if "updateCount" in m.metadata.value then m.metadata.value["updateCount"] else MInt(0);
        match v
        case MInt(c) => Success(AddInt32(c, 1))
        case MNull => Failure("NullPointerException")
        case _ => Failure("ClassCastException")
  }

  /** The summary message applySummary writes: a system message with the prefixed
      summary and the counters in its metadata. */
  function SummaryMessage(summary: string, total: Int32, updates: Int32, now: int): Message {
    Message("system", Some(SummaryPrefix + summary),
            Some(map["isSummary" := MBool(true), "messageCount" := MInt(Threshold),
                     "totalMessagesSummarized" := MInt(total), "timestamp" := MLong(now),
                     "updateCount" := MInt(updates)]))
  }

  /** The summary message applySummary builds for a history whose existing summary,
      if any, has a usable updateCount. */
  function NewSummary(h: seq<Message>, summary: string, now: int): Message
    requires NextUpdateCount(FirstSummary(h)).Success?
  {
    var existing := FirstSummary(h);
    SummaryMessage(summary, AddInt32(PreviouslySummarized(existing), Threshold), NextUpdateCount(existing).value, now)
  }

  /** The history applySummary leaves: the kept system messages, the new summary, and
      the conversation without its last four messages. Fewer than four conversation
      messages make subList throw, and so does a bad updateCount; both come before
      the history is cleared. */
  function Rebuilt(h: seq<Message>, summary: string, now: int): (r: Result<seq<Message>, string>)
    ensures |Filter(IsConversational, h)| < 4 ==> r == Failure("IllegalArgumentException")
    ensures |Filter(IsConversational, h)| >= 4 && NextUpdateCount(FirstSummary(h)).Failure? ==>
              r == Failure(NextUpdateCount(FirstSummary(h)).error)
    ensures r.Success? <==> |Filter(IsConversational, h)| >= 4 && NextUpdateCount(FirstSummary(h)).Success?
    ensures r.Success? ==>
              |r.value| == |Filter(KeptSystem, h)| + 1 + |Filter(IsConversational, h)| - 4
              && r.value[|Filter(KeptSystem, h)|] == NewSummary(h, summary, now)
              && IsSummary(r.value[|Filter(KeptSystem, h)|])
  {
    var conversation := Filter(IsConversational, h);
    if |conversation| < Threshold as int then Failure("IllegalArgumentException")
    else if NextUpdateCount(FirstSummary(h)).Failure? then Failure(NextUpdateCount(FirstSummary(h)).error)
    else
      var existing := FirstSummary(h);
      SummaryMessageFlags(summary, AddInt32(PreviouslySummarized(existing), Threshold), NextUpdateCount(existing).value, now);
      Success(Filter(KeptSystem, h) + [NewSummary(h, summary, now)] + conversation[..|conversation| - Threshold as int])
  }

  /** applySummary: rebuilds the history in place and reports four summarised messages. */
  method ApplySummary(history: MessageList, summary: string, now: int) returns (r: Result<Int32, string>)
    modifies history
    ensures var spec := Rebuilt(old(history.items), summary, now);
            && (spec.Success? ==> r == Success(Threshold) && history.items == spec.value)
            && (spec.Failure? ==> r == Failure(spec.error) && history.items == old(history.items))
  {
    var h := history.items;
    var existing := FirstSummary(h);
    var systemMessages := Filter(KeptSystem, h);
    var conversation := Filter(IsConversational, h);
    var total := |conversation|;
    if total < Threshold as int {
      return Failure("IllegalArgumentException");
    }
    var remaining := conversation[..total - Threshold as int];
    var previously: Int32 := 0;
    if existing.Some? && existing.value.metadata.Some? {
      var metadata := existing.value.metadata.value;
      if "totalMessagesSummarized" in metadata && metadata["totalMessagesSummarized"].MInt? {
        previously := metadata["totalMessagesSummarized"].i;
      }
    }
    var totalSummarized := AddInt32(previously, Threshold);
    var updates := NextUpdateCount(existing);
    if updates.Failure? {
      return Failure(updates.error);
    }
    var summaryMessage := SummaryMessage(summary, totalSummarized, updates.value, now);
    history.items := [];
    history.items := history.items + systemMessages;
    history.items := history.items + [summaryMessage];
    history.items := history.items + remaining;
    r := Success(Threshold);
  }

  /** The request createSummary sends: a fresh summary of the transcript, or an update
      of the existing summary's text when it has a non-empty one. */
  datatype SummaryPrompt = CreatePrompt(transcript: string) | UpdatePrompt(existing: string, transcript: string)

  /** The language model asked for a summary: its content, or None when the call
      fails or returns no content. */
  type Summariser = SummaryPrompt -> Option<string>

  /** The messages createSummary summarises: the last four counted ones. */
  function ToSummarize(h: seq<Message>): Option<seq<Message>> {
    var counted := Filter(Counted, h);
    if |counted| < Threshold as int then None else Some(counted[|counted| - Threshold as int..])
  }

  function PromptFor(h: seq<Message>): SummaryPrompt
    requires ToSummarize(h).Some?
  {
    var existing := match FirstSummary(h) case Some(m) => ExtractSummaryContent(m) case None => None;
    var text := Transcript(ToSummarize(h).value);
    if existing.Some? && existing.value != "" then UpdatePrompt(existing.value, text) else CreatePrompt(text)
  }

  /** createSummary: null below the threshold; otherwise what the model answers to the
      prompt for the last four counted messages. */
  method CreateSummary(h: seq<Message>, summarise: Summariser) returns (r: Option<string>)
    ensures ToSummarize(h).None? ==> r.None?
    ensures ToSummarize(h).Some? ==> r == summarise(PromptFor(h))
  {
    var conversation := Filter(Counted, h);
    var total := |conversation|;
    if total < Threshold as int {
      return None;
    }
    var found := FindExistingSummary(Some(h));
    var existing := if found.Some? then ExtractSummaryContent(found.value) else None;
    var toSummarize := conversation[total - Threshold as int..];
    var text := BuildTranscript(toSummarize);
    var prompt;
    if existing.Some? && existing.value != "" {
      prompt := UpdatePrompt(existing.value, text);
    } else {
      prompt := CreatePrompt(text);
    }
    r := summarise(prompt);
  }

  /** A summary is asked for exactly when one is needed, and it covers the last four
      counted messages, in order. */
  lemma ToSummarizeSpec(h: seq<Message>)
    ensures ToSummarize(h).Some? <==> NeedsSummarization(Some(h))
    ensures ToSummarize(h).Some? ==>
              |ToSummarize(h).value| == 4 &&
              Filter(Counted, h) == Filter(Counted, h)[..|Filter(Counted, h)| - 4] + ToSummarize(h).value
  {
  }

  /** Reading a summary message back gives the summary it was written with. */
  lemma ExtractRoundTrip(summary: string, total: Int32, updates: Int32, now: int)
    ensures ExtractSummaryContent(SummaryMessage(summary, total, updates, now)) == Some(summary)
  {
    var c := SummaryPrefix + summary;
    assert c[..|SummaryPrefix|] == SummaryPrefix;
    assert c[|SummaryPrefix|..] == summary;
  }

  /** No conversation message is flagged as a summary, as is the case for every
      history this service writes. */
  predicate SummariesAreSystem(h: seq<Message>) {
    forall i :: 0 <= i < |h| ==> IsSummary(h[i]) ==> !IsConversational(h[i])
  }

  /** The parts of a rebuilt history: no kept system message is a summary or
      conversation, and every remaining message is counted conversation. */
  lemma RebuiltParts(h: seq<Message>, summary: string, now: int)
    requires Rebuilt(h, summary, now).Success?
    requires SummariesAreSystem(h)
    ensures var conversation := Filter(IsConversational, h);
            && |conversation| >= 4
            && (forall i :: 0 <= i < |Filter(KeptSystem, h)| ==> !IsSummary(Filter(KeptSystem, h)[i]) && !IsConversational(Filter(KeptSystem, h)[i]))
            && (forall i :: 0 <= i < |conversation| ==> Counted(conversation[i]))
            && Rebuilt(h, summary, now).value == Filter(KeptSystem, h) + [NewSummary(h, summary, now)] + conversation[..|conversation| - 4]
  {
    var conversation := Filter(IsConversational, h);
    var sys := Filter(KeptSystem, h);
    forall i | 0 <= i < |sys| ensures !IsSummary(sys[i]) && !IsConversational(sys[i]) {
      FilterMembers(KeptSystem, h, sys[i]);
    }
    forall i | 0 <= i < |conversation| ensures Counted(conversation[i]) {
      FilterMembers(IsConversational, h, conversation[i]);
      var j :| 0 <= j < |h| && h[j] == conversation[i];
    }
  }

  /** What applySummary writes is a system message flagged as a summary. */
  lemma SummaryMessageFlags(summary: string, total: Int32, updates: Int32, now: int)
    ensures IsSummary(SummaryMessage(summary, total, updates, now))
    ensures !IsConversational(SummaryMessage(summary, total, updates, now))
  {
  }

  /** After applySummary exactly one message is a summary. */
  lemma OneSummaryAfterApply(h: seq<Message>, summary: string, now: int)
    requires Rebuilt(h, summary, now).Success?
    requires SummariesAreSystem(h)
    ensures |Filter(IsSummary, Rebuilt(h, summary, now).value)| == 1
  {
    RebuiltParts(h, summary, now);
    var conversation := Filter(IsConversational, h);
    var sys := Filter(KeptSystem, h);
    var msg := NewSummary(h, summary, now);
    var rest := conversation[..|conversation| - 4];
    var existing := FirstSummary(h);
    SummaryMessageFlags(summary, AddInt32(PreviouslySummarized(existing), Threshold), NextUpdateCount(existing).value, now);
    assert forall i :: 0 <= i < |rest| ==> rest[i] == conversation[i];
    FilterNone(IsSummary, sys);
    FilterNone(IsSummary, rest);
    FilterAppend(IsSummary, sys, [msg]);
    FilterAppend(IsSummary, sys + [msg], rest);
    assert Filter(IsSummary, [msg]) == [msg] by {
      assert [msg][..0] == [];
    }
  }

  /** The summary findExistingSummary finds after applySummary is the new one, which
      sits right after the kept system messages. */
  lemma NewSummaryFirst(h: seq<Message>, summary: string, now: int)
    requires Rebuilt(h, summary, now).Success?
    requires SummariesAreSystem(h)
    ensures Rebuilt(h, summary, now).value[|Filter(KeptSystem, h)|] == NewSummary(h, summary, now)
    ensures FirstSummary(Rebuilt(h, summary, now).value) == Some(NewSummary(h, summary, now))
  {
    RebuiltParts(h, summary, now);
    var conversation := Filter(IsConversational, h);
    var sys := Filter(KeptSystem, h);
    var msg := NewSummary(h, summary, now);
    var r := sys + [msg] + conversation[..|conversation| - 4];
    var existing := FirstSummary(h);
    SummaryMessageFlags(summary, AddInt32(PreviouslySummarized(existing), Threshold), NextUpdateCount(existing).value, now);
    assert r[|sys|] == msg;
    assert forall i :: 0 <= i < |sys| ==> r[i] == sys[i];
    FirstSummaryAt(r, |sys|);
  }

  /** applySummary keeps every summary out of the conversation. */
  lemma SummariesStaySystem(h: seq<Message>, summary: string, now: int)
    requires Rebuilt(h, summary, now).Success?
    requires SummariesAreSystem(h)
    ensures SummariesAreSystem(Rebuilt(h, summary, now).value)
  {
    RebuiltParts(h, summary, now);
    var conversation := Filter(IsConversational, h);
    var sys := Filter(KeptSystem, h);
    var msg := NewSummary(h, summary, now);
    var rest := conversation[..|conversation| - 4];
    var r := sys + [msg] + rest;
    var existing := FirstSummary(h);
    SummaryMessageFlags(summary, AddInt32(PreviouslySummarized(existing), Threshold), NextUpdateCount(existing).value, now);
    assert forall i :: 0 <= i < |sys| ==> r[i] == sys[i];
    assert forall i :: |sys| < i < |r| ==> r[i] == rest[i - |sys| - 1] == conversation[i - |sys| - 1];
  }

  /** The summary applySummary writes reads back as the summary text, with
      totalMessagesSummarized the previous total plus four and updateCount the
      previous count plus one. */
  lemma CountersAfterApply(h: seq<Message>, summary: string, now: int)
    requires Rebuilt(h, summary, now).Success?
    requires SummariesAreSystem(h)
    ensures var next := FirstSummary(Rebuilt(h, summary, now).value);
            && next.Some?
            && ExtractSummaryContent(next.value) == Some(summary)
            && PreviouslySummarized(next) == AddInt32(PreviouslySummarized(FirstSummary(h)), 4)
            && NextUpdateCount(next) == Success(AddInt32(NextUpdateCount(FirstSummary(h)).value, 1))
  {
    NewSummaryFirst(h, summary, now);
    var existing := FirstSummary(h);
    ExtractRoundTrip(summary, AddInt32(PreviouslySummarized(existing), Threshold), NextUpdateCount(existing).value, now);
  }

  /** applySummary takes exactly four messages off the count needsSummarization uses. */
  lemma CountAfterApply(h: seq<Message>, summary: string, now: int)
    requires Rebuilt(h, summary, now).Success?
    requires SummariesAreSystem(h)
    ensures |Filter(Counted, Rebuilt(h, summary, now).value)| == |Filter(Counted, h)| - 4
  {
    RebuiltParts(h, summary, now);
    var conversation := Filter(IsConversational, h);
    var sys := Filter(KeptSystem, h);
    var msg := NewSummary(h, summary, now);
    var rest := conversation[..|conversation| - 4];
    assert Filter(Counted, sys) == [] by {
      FilterNone(Counted, sys);
    }
    assert Filter(Counted, rest) == rest by {
      assert forall i :: 0 <= i < |rest| ==> rest[i] == conversation[i];
      FilterAll(Counted, rest);
    }
    assert Filter(Counted, [msg]) == [] by {
      assert [msg][..0] == [];
    }
    assert Filter(Counted, sys + [msg] + rest) == rest by {
      FilterAppend(Counted, sys, [msg]);
      FilterAppend(Counted, sys + [msg], rest);
    }
    assert Filter(Counted, h) == conversation by {
      FilterSame(Counted, IsConversational, h);
    }
  }

  /** Once a summary with non-empty text has been applied, the next summary request
      updates that text instead of starting afresh. */
  lemma NextPromptUpdates(h: seq<Message>, summary: string, now: int)
    requires Rebuilt(h, summary, now).Success?
    requires SummariesAreSystem(h)
    requires summary != ""
    requires ToSummarize(Rebuilt(h, summary, now).value).Some?
    ensures PromptFor(Rebuilt(h, summary, now).value).UpdatePrompt?
    ensures PromptFor(Rebuilt(h, summary, now).value).existing == summary
  {
    CountersAfterApply(h, summary, now);
  }
}
