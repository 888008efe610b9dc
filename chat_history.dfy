/** The conversation history kept in the HTTP session (a java.util.List of
    ChatRequest.Message), shared by the chat service and the summarisers. */
module ChatHistory {
  import opened Wrappers
  import opened Strings
  import opened JavaInt

  /** A value in a message's metadata map, by its Java class. */
  datatype Meta =
    | MNull
    | MBool(b: bool)
    | MInt(i: Int32)
    | MLong(l: int)
    | MText(s: string)
    | MOther

  /** ChatRequest.Message: role, content and metadata. A null role is the empty
      role: it equals none of "user", "assistant" and "system", as null does not. */
  datatype Message = Message(role: string, content: Option<string>, metadata: Option<map<string, Meta>>)

  /** The roles the chat services treat as conversation. */
  predicate IsConversational(m: Message) {
    m.role == "user" || m.role == "assistant"
  }

  predicate IsSystem(m: Message) {
    m.role == "system"
  }

  /** Stream.filter: the elements that satisfy `p`, in order. */
  function Filter<T>(p: T -> bool, s: seq<T>): (r: seq<T>)
    ensures |r| <= |s|
    decreases |s|
  {
    if s == [] then []
    else Filter(p, s[..|s| - 1]) + (if p(s[|s| - 1]) then [s[|s| - 1]] else [])
  }

  /** Filtering a concatenation filters each part. */
  lemma {:induction false} FilterAppend<T>(p: T -> bool, a: seq<T>, b: seq<T>)
    ensures Filter(p, a + b) == Filter(p, a) + Filter(p, b)
    decreases |b|
  {
    if b != [] {
      var b' := b[..|b| - 1];
      assert (a + b)[..|a + b| - 1] == a + b';
      FilterAppend(p, a, b');
    } else {
      assert a + b == a;
    }
  }

  /** What the filter keeps is exactly the elements that satisfy `p`. */
  lemma {:induction false} FilterMembers<T>(p: T -> bool, s: seq<T>, x: T)
    ensures x in Filter(p, s) <==> x in s && p(x)
    decreases |s|
  {
    if s != [] {
      var init := s[..|s| - 1];
      FilterMembers(p, init, x);
      assert s == init + [s[|s| - 1]];
    }
  }

  /** A filter that keeps everything changes nothing. */
  lemma {:induction false} FilterAll<T>(p: T -> bool, s: seq<T>)
    requires forall i :: 0 <= i < |s| ==> p(s[i])
    ensures Filter(p, s) == s
    decreases |s|
  {
    if s != [] {
      FilterAll(p, s[..|s| - 1]);
    }
  }

  /** A filter that keeps nothing yields nothing. */
  lemma {:induction false} FilterNone<T>(p: T -> bool, s: seq<T>)
    requires forall i :: 0 <= i < |s| ==> !p(s[i])
    ensures Filter(p, s) == []
    decreases |s|
  {
    if s != [] {
      FilterNone(p, s[..|s| - 1]);
    }
  }

  /** Two predicates that agree on every element filter alike. */
  lemma {:induction false} FilterSame<T>(p: T -> bool, q: T -> bool, s: seq<T>)
    requires forall i :: 0 <= i < |s| ==> p(s[i]) == q(s[i])
    ensures Filter(p, s) == Filter(q, s)
    decreases |s|
  {
    if s != [] {
      FilterSame(p, q, s[..|s| - 1]);
    }
  }

  /** Filtering twice with the same predicate is filtering once. */
  lemma {:induction false} FilterIdempotent<T>(p: T -> bool, s: seq<T>)
    ensures Filter(p, Filter(p, s)) == Filter(p, s)
    decreases |s|
  {
    if s != [] {
      var init := s[..|s| - 1];
      FilterIdempotent(p, init);
      var last := if p(s[|s| - 1]) then [s[|s| - 1]] else [];
      FilterAppend(p, Filter(p, init), last);
    }
  }

  /** The text a summariser sends for one message: ROLE: content, then a blank line. */
  function TranscriptLine(m: Message): string {
    Upper(m.role) + ": " + Str(m.content) + "\n\n"
  }

  /** The transcript of several messages, in order. */
  function Transcript(msgs: seq<Message>): string
    decreases |msgs|
  {
    if msgs == [] then "" else Transcript(msgs[..|msgs| - 1]) + TranscriptLine(msgs[|msgs| - 1])
  }

  /** The StringBuilder loop both summarisers use to write a transcript. */
  method BuildTranscript(msgs: seq<Message>) returns (text: string)
    ensures text == Transcript(msgs)
  {
    text := "";
    var i := 0;
    while i < |msgs|
      invariant 0 <= i <= |msgs|
      invariant text == Transcript(msgs[..i])
    {
      assert msgs[..i + 1][..i] == msgs[..i];
      text := text + TranscriptLine(msgs[i]);
      i := i + 1;
    }
    assert msgs[..|msgs|] == msgs;
  }

  /** The transcript of a concatenation is the concatenation of the transcripts. */
  lemma {:induction false} TranscriptAppend(a: seq<Message>, b: seq<Message>)
    ensures Transcript(a + b) == Transcript(a) + Transcript(b)
    decreases |b|
  {
    if b != [] {
      var b' := b[..|b| - 1];
      assert (a + b)[..|a + b| - 1] == a + b';
      TranscriptAppend(a, b');
    } else {
      assert a + b == a;
    }
  }

  /** The session's history list, which the services change in place. */
  class MessageList {
    var items: seq<Message>

    constructor(items: seq<Message>)
      ensures this.items == items
    {
      this.items := items;
    }
  }
}
