/** The Perplexity service's HistorySummarizationService: the last ten conversation
    messages are replaced by one assistant message that carries their summary. */
module PerplexitySummary {
  import opened Wrappers
  import opened Strings
  import opened JavaInt
  import opened ChatHistory

  const Threshold: Int32 := 10
  const SummaryPrefix := "SUMMARY: "
  const RequestPrefix := "Please summarize this conversation:\n\n"

  /** needsSummarization: at least ten conversation messages, earlier summaries
      included, since this variant does not look at the metadata. */
  function NeedsSummarization(history: Option<seq<Message>>): (r: bool)
    ensures history.None? ==> !r
    ensures history.Some? ==> (r <==> |Filter(IsConversational, history.value)| >= 10)
  {
    history.Some? && |Filter(IsConversational, history.value)| >= Threshold as int
  }

  /** The summary message applySummary appends. */
  function SummaryMessage(summary: string, now: int): Message {
    Message("assistant", Some(SummaryPrefix + summary),
            Some(map["isSummary" := MBool(true), "messageCount" := MInt(Threshold), "timestamp" := MLong(now)]))
  }

  /** The history applySummary leaves: the system messages, the conversation without
      its last ten messages, then the summary. Fewer than ten conversation messages
      make subList throw before the history is cleared. */
  function Rebuilt(h: seq<Message>, summary: string, now: int): (r: Option<seq<Message>>)
    ensures r.None? <==> |Filter(IsConversational, h)| < 10
    ensures r.Some? ==>
              var kept := |Filter(IsSystem, h)|;
              && kept < |r.value|
              && r.value[..kept] == Filter(IsSystem, h)
              && r.value[kept..|r.value| - 1] == Filter(IsConversational, h)[..|Filter(IsConversational, h)| - 10]
              && r.value[|r.value| - 1] == SummaryMessage(summary, now)
  {
    var conversation := Filter(IsConversational, h);
    if |conversation| < Threshold as int then None
    else Some(Filter(IsSystem, h) + conversation[..|conversation| - Threshold as int] + [SummaryMessage(summary, now)])
  }

  /** applySummary: rebuilds the history in place; `ok` is false when it throws, and
      then the history is as it was. */
  method ApplySummary(history: MessageList, summary: string, now: int) returns (ok: bool)
    modifies history
    ensures var spec := Rebuilt(old(history.items), summary, now);
            && (ok <==> spec.Some?)
            && history.items == (if ok then spec.value else old(history.items))
  {
    var h := history.items;
    var systemMessages := Filter(IsSystem, h);
    var conversation := Filter(IsConversational, h);
    var total := |conversation|;
    if total < Threshold as int {
      return false;
    }
    var remaining := conversation[..total - Threshold as int];
    history.items := [];
    history.items := history.items + systemMessages;
    history.items := history.items + remaining;
    history.items := history.items + [SummaryMessage(summary, now)];
    ok := true;
  }

  /** The last ten conversation messages, which createSummary summarises. */
  function ToSummarize(h: seq<Message>): Option<seq<Message>> {
    var conversation := Filter(IsConversational, h);
    if |conversation| < Threshold as int then None
    else Some(conversation[|conversation| - Threshold as int..])
  }

  /** The language model asked for a summary of a request text: the first choice's
      content, or None when the call fails or has no choices. */
  type Summariser = string -> Option<string>

  /** createSummary: null below the threshold; otherwise what the model answers to the
      request for the last ten conversation messages. */
  method CreateSummary(h: seq<Message>, summarise: Summariser) returns (r: Option<string>)
    ensures ToSummarize(h).None? ==> r.None?
    ensures ToSummarize(h).Some? ==> r == summarise(RequestPrefix + Transcript(ToSummarize(h).value))
  {
    var conversation := Filter(IsConversational, h);
    var total := |conversation|;
    if total < Threshold as int {
      return None;
    }
    var text := BuildTranscript(conversation[total - Threshold as int..]);
    r := summarise(RequestPrefix + text);
  }

  /** A summary is asked for exactly when one is needed, and it covers the last ten
      conversation messages, in order. */
  lemma ToSummarizeSpec(h: seq<Message>)
    ensures ToSummarize(h).Some? <==> NeedsSummarization(Some(h))
    ensures ToSummarize(h).Some? ==>
              var conversation := Filter(IsConversational, h);
              |ToSummarize(h).value| == 10 &&
              conversation == conversation[..|conversation| - 10] + ToSummarize(h).value
  {
  }

  /** The shape of the rebuilt history: its length is the number of system messages,
      plus the conversation less ten, plus one; the summary comes last and is flagged. */
  lemma RebuiltShape(h: seq<Message>, summary: string, now: int)
    requires Rebuilt(h, summary, now).Some?
    ensures var r := Rebuilt(h, summary, now).value;
            && |r| == |Filter(IsSystem, h)| + |Filter(IsConversational, h)| - 10 + 1
            && r[|r| - 1].role == "assistant"
            && r[|r| - 1].content == Some(SummaryPrefix + summary)
            && r[|r| - 1].metadata.Some?
            && r[|r| - 1].metadata.value["isSummary"] == MBool(true)
            && r[|r| - 1].metadata.value["messageCount"] == MInt(10)
  {
  }

  /** The summary counts as conversation the next time, so applySummary lowers the
      count needsSummarization uses by nine, not ten. */
  lemma {:induction false} CountAfterApply(h: seq<Message>, summary: string, now: int)
    requires Rebuilt(h, summary, now).Some?
    ensures |Filter(IsConversational, Rebuilt(h, summary, now).value)| == |Filter(IsConversational, h)| - 9
  {
    var conversation := Filter(IsConversational, h);
    var sys := Filter(IsSystem, h);
    var rest := conversation[..|conversation| - 10];
    var msg := SummaryMessage(summary, now);
    forall i | 0 <= i < |sys| ensures !IsConversational(sys[i]) {
      FilterMembers(IsSystem, h, sys[i]);
    }
    forall i | 0 <= i < |rest| ensures IsConversational(rest[i]) {
      assert rest[i] == conversation[i];
      FilterMembers(IsConversational, h, conversation[i]);
    }
    FilterNone(IsConversational, sys);
    FilterAll(IsConversational, rest);
    FilterAppend(IsConversational, sys, rest);
    FilterAppend(IsConversational, sys + rest, [msg]);
    assert Filter(IsConversational, [msg]) == [msg] by {
      assert [msg][..0] == [];
    }
  }

  /** Everything applySummary keeps was in the history before, and only the summary is new. */
  lemma {:induction false} RebuiltKeepsOrigin(h: seq<Message>, summary: string, now: int)
    requires Rebuilt(h, summary, now).Some?
    ensures var r := Rebuilt(h, summary, now).value;
            forall i :: 0 <= i < |r| - 1 ==> r[i] in h
  {
    var conversation := Filter(IsConversational, h);
    var sys := Filter(IsSystem, h);
    var rest := conversation[..|conversation| - 10];
    var r := sys + rest + [SummaryMessage(summary, now)];
    forall i | 0 <= i < |r| - 1 ensures r[i] in h {
      if i < |sys| {
        assert r[i] == sys[i];
        FilterMembers(IsSystem, h, sys[i]);
      } else {
        assert r[i] == rest[i - |sys|] == conversation[i - |sys|];
        FilterMembers(IsConversational, h, conversation[i - |sys|]);
      }
    }
  }
}
