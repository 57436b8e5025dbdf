/** The assistant chat screen: its transcript, the in-flight flag and the fold of a
    streamed reply into one model message. */
module Chat {
  import opened Wrappers

  /** Who wrote a message. */
  datatype Role = User | Model

  /** A message id. The screen uses the literal 'greet' for the greeting and the decimal
      rendering of a millisecond clock reading for every other message; decimal rendering
      is injective and never yields 'greet', so equality here is equality of the strings. */
  datatype MessageId = GreetId | Clock(millis: int)

  /** One transcript entry. An absent optional flag is modelled as `false`. */
  datatype ChatMessage = ChatMessage(
    id: MessageId,
    role: Role,
    text: string,
    isThinking: bool,
    showOverview: bool)

  const GreetingText: string := "早上好，程观\n冬至到，天渐寒，多添衣，保健康"

  /** The message the screen opens with; the only one carrying the health overview panel. */
  const Greeting: ChatMessage := ChatMessage(GreetId, Model, GreetingText, false, true)

  /** The user's message as sent: the text is kept untrimmed, and the message is neither
      thinking nor carrying the overview panel. */
  function UserMessage(id: MessageId, text: string): (m: ChatMessage)
    ensures m.id == id && m.role == User && m.text == text
    ensures !m.isThinking && !m.showOverview
  {
    ChatMessage(id, User, text, false, false)
  }

  /** The model message appended once the reply stream is open: it holds the fold of no
      chunks yet, and is marked thinking because nothing has arrived. */
  function Placeholder(id: MessageId): (p: ChatMessage)
    ensures p.id == id && p.role == Model && p.text == "" && p.isThinking
    ensures !p.showOverview
  {
    ChatMessage(id, Model, "", true, false)
  }

  /** How the remote reply stream ends after delivering its chunks. */
  datatype Ending = Completed | Failed

  /** The remote reply: either opening it throws, or it delivers a finite sequence of
      chunks (each with a text that may be absent) and then completes or throws. */
  datatype Stream = FailsToOpen | Opened(chunks: seq<Option<string>>, ending: Ending)

  // ---------------------------------------------------------------------------------
  // Blank input: String.prototype.trim

  /** ECMAScript WhiteSpace or LineTerminator, the characters `trim` removes. */
  predicate IsWhiteSpace(c: char) {
    c as int in WhiteSpaceCodes
  }

  /** TAB, LF, VT, FF, CR, SPACE, NBSP, the other space separators, LS, PS and the BOM. */
  const WhiteSpaceCodes: set<int> := {
    0x09, 0x0A, 0x0B, 0x0C, 0x0D, 0x20, 0xA0, 0x1680,
    0x2000, 0x2001, 0x2002, 0x2003, 0x2004, 0x2005, 0x2006, 0x2007, 0x2008, 0x2009, 0x200A,
    0x2028, 0x2029, 0x202F, 0x205F, 0x3000, 0xFEFF
  }

  /** Every character is white space (the empty string included). */
  predicate Blank(s: string) {
    forall i | 0 <= i < |s| :: IsWhiteSpace(s[i])
  }

  /** How many white-space characters `s` starts with. */
  function LeadingWhiteSpace(s: string): (n: nat)
    ensures n <= |s|
    ensures forall i | 0 <= i < n :: IsWhiteSpace(s[i])
    ensures n < |s| ==> !IsWhiteSpace(s[n])
  {
    if s != [] && IsWhiteSpace(s[0]) then 1 + LeadingWhiteSpace(s[1..]) else 0
  }

  /** How many white-space characters `s` ends with. */
  function TrailingWhiteSpace(s: string): (n: nat)
    ensures n <= |s|
    ensures forall i | |s| - n <= i < |s| :: IsWhiteSpace(s[i])
    ensures n < |s| ==> !IsWhiteSpace(s[|s| - n - 1])
  {
    if s != [] && IsWhiteSpace(s[|s| - 1]) then 1 + TrailingWhiteSpace(s[..|s| - 1]) else 0
  }

  /** `s.trim()`: the slice of `s` between its leading and trailing white space, which
      starts and ends with a character that is not white space. It is empty exactly when
      `s` is blank. */
  function Trim(s: string): (r: string)
    ensures r == [] <==> Blank(s)
    ensures var lead := LeadingWhiteSpace(s);
      lead + |r| <= |s| && r == s[lead..lead + |r|] &&
      forall i | lead + |r| <= i < |s| :: IsWhiteSpace(s[i])
    ensures r == [] || (!IsWhiteSpace(r[0]) && !IsWhiteSpace(r[|r| - 1]))
  {
    var lead := LeadingWhiteSpace(s);
    if lead == |s| then []
    else
      var trail := TrailingWhiteSpace(s);
      assert lead < |s| - trail by {
        assert !IsWhiteSpace(s[lead]);
      }
      s[lead..|s| - trail]
  }

  // ---------------------------------------------------------------------------------
  // The chunk fold

  /** The text a chunk contributes: nothing when it is absent or empty. */
  function ChunkText(chunk: Option<string>): string {
    chunk.GetOr("")
  }

  /** The texts of the non-empty chunks, in arrival order. */
  function Texts(chunks: seq<Option<string>>): (r: seq<string>)
    ensures |r| <= |chunks|
    ensures forall k | 0 <= k < |r| :: r[k] != ""
  {
    if chunks == [] then []
    else
      var t := ChunkText(chunks[0]);
      (if t == "" then [] else [t]) + Texts(chunks[1..])
  }

  /** The concatenation of a sequence of strings. */
  function Concat(ts: seq<string>): string {
    if ts == [] then "" else ts[0] + Concat(ts[1..])
  }

  /** The number of characters the chunks carry; an absent text carries none. */
  function TextLength(chunks: seq<Option<string>>): nat {
    if chunks == [] then 0 else |ChunkText(chunks[0])| + TextLength(chunks[1..])
  }

  /** The reply text after the given chunks: the non-empty ones, concatenated in order. */
  function Folded(chunks: seq<Option<string>>): string {
    Concat(Texts(chunks))
  }

  /** No character of any chunk is lost or added: the folded text is as long as all the
      chunk texts together. */
  lemma {:induction false} FoldedLength(chunks: seq<Option<string>>)
    ensures |Folded(chunks)| == TextLength(chunks)
  {
    if chunks != [] {
      FoldedLength(chunks[1..]);
      var t, rest := ChunkText(chunks[0]), Texts(chunks[1..]);
      if t == "" {
        assert Texts(chunks) == rest;
      } else {
        assert Texts(chunks) == [t] + rest;
        assert ([t] + rest)[1..] == rest;
      }
    }
  }


  lemma {:induction false} TextsAppend(a: seq<Option<string>>, b: seq<Option<string>>)
    ensures Texts(a + b) == Texts(a) + Texts(b)
  {
    if a != [] {
      assert (a + b)[1..] == a[1..] + b;
      TextsAppend(a[1..], b);
    } else {
      assert a + b == b;
    }
  }

  /** One more chunk adds its text to the collected texts when it is non-empty, and adds
      nothing when it is absent or empty. */
  lemma TextsSnoc(chunks: seq<Option<string>>, c: Option<string>)
    ensures Texts(chunks + [c]) == Texts(chunks) + (if ChunkText(c) == "" then [] else [ChunkText(c)])
  {
    TextsAppend(chunks, [c]);
    assert Texts([c]) == (if ChunkText(c) == "" then [] else [ChunkText(c)]) + Texts([]);
  }

  lemma {:induction false} ConcatAppend(a: seq<string>, b: seq<string>)
    ensures Concat(a + b) == Concat(a) + Concat(b)
  {
    if a != [] {
      assert (a + b)[1..] == a[1..] + b;
      ConcatAppend(a[1..], b);
    } else {
      assert a + b == b;
    }
  }

  /** Folding distributes over splitting the stream: no chunk is lost, duplicated or
      reordered. */
  lemma FoldedAppend(a: seq<Option<string>>, b: seq<Option<string>>)
    ensures Folded(a + b) == Folded(a) + Folded(b)
  {
    TextsAppend(a, b);
    ConcatAppend(Texts(a), Texts(b));
  }

  /** One more chunk extends the folded text by exactly that chunk's text. */
  lemma FoldedSnoc(chunks: seq<Option<string>>, c: Option<string>)
    ensures Folded(chunks + [c]) == Folded(chunks) + ChunkText(c)
  {
    TextsSnoc(chunks, c);
    ConcatAppend(Texts(chunks), if ChunkText(c) == "" then [] else [ChunkText(c)]);
    assert Concat([ChunkText(c)]) == ChunkText(c) + Concat([]);
  }

  /** The folded text only grows: every earlier snapshot is a prefix of every later one. */
  lemma FoldedSnapshotsGrow(chunks: seq<Option<string>>, i: nat, j: nat)
    requires i <= j <= |chunks|
    ensures Folded(chunks[..i]) <= Folded(chunks[..j])
  {
    assert chunks[..j] == chunks[..i] + chunks[i..j];
    FoldedAppend(chunks[..i], chunks[i..j]);
  }

  /** The folded text is empty exactly when every chunk is absent or empty. */
  lemma {:induction false} FoldedEmptyIff(chunks: seq<Option<string>>)
    ensures Folded(chunks) == "" <==> forall k | 0 <= k < |chunks| :: ChunkText(chunks[k]) == ""
  {
    if chunks != [] {
      FoldedEmptyIff(chunks[1..]);
      var t := ChunkText(chunks[0]);
      if t == "" {
        assert Texts(chunks) == Texts(chunks[1..]);
        assert forall k | 1 <= k < |chunks| :: chunks[k] == chunks[1..][k - 1];
      } else {
        assert Texts(chunks) == [t] + Texts(chunks[1..]);
        assert Folded(chunks) == t + Folded(chunks[1..]);
      }
    }
  }

  /** The fold of the example stream "Hi", " there", "!" with an empty and an absent chunk
      in between, and the snapshots seen after each of "A", "B", "C". */
  lemma FoldedExamples()
    ensures Folded([Some("Hi"), Some(""), Some(" there"), None, Some("!")]) == "Hi there!"
    ensures var abc := [Some("A"), Some("B"), Some("C")];
      Folded(abc[..1]) == "A" && Folded(abc[..2]) == "AB" && Folded(abc[..3]) == "ABC"
  {
    var s := [Some("Hi"), Some(""), Some(" there"), None, Some("!")];
    assert s == [Some("Hi")] + [Some("")] + [Some(" there")] + [None] + [Some("!")];
    FoldedSnoc([Some("Hi")] + [Some("")] + [Some(" there")] + [None], Some("!"));
    FoldedSnoc([Some("Hi")] + [Some("")] + [Some(" there")], None);
    FoldedSnoc([Some("Hi")] + [Some("")], Some(" there"));
    FoldedSnoc([Some("Hi")], Some(""));
    FoldedSnoc([], Some("Hi"));
    var abc := [Some("A"), Some("B"), Some("C")];
    FoldedSnoc([], Some("A"));
    assert abc[..2] == [Some("A")] + [Some("B")];
    FoldedSnoc([Some("A")], Some("B"));
    assert abc[..3] == [Some("A"), Some("B")] + [Some("C")];
    FoldedSnoc([Some("A"), Some("B")], Some("C"));
  }

  // ---------------------------------------------------------------------------------
  // Rewriting the reply in place

  /** Rewrites the transcript by id: every message whose id is `id` gets the new text and
      loses its thinking flag; every other message, and the order, stay as they were. */
  function Restamp(ms: seq<ChatMessage>, id: MessageId, text: string): (r: seq<ChatMessage>)
    ensures |r| == |ms|
    ensures forall k | 0 <= k < |ms| ::
      r[k].id == ms[k].id && r[k].role == ms[k].role && r[k].showOverview == ms[k].showOverview
    ensures forall k | 0 <= k < |ms| && ms[k].id != id :: r[k] == ms[k]
    ensures forall k | 0 <= k < |ms| && ms[k].id == id :: r[k].text == text && !r[k].isThinking
  {
    if ms == [] then []
    else
      var m := ms[0];
      [if m.id == id then m.(text := text, isThinking := false) else m] + Restamp(ms[1..], id, text)
  }

  /** A later rewrite with the same id overrides an earlier one. */
  lemma RestampTwice(ms: seq<ChatMessage>, id: MessageId, a: string, b: string)
    ensures Restamp(Restamp(ms, id, a), id, b) == Restamp(ms, id, b)
  {
    var once := Restamp(ms, id, a);
    var left, right := Restamp(once, id, b), Restamp(ms, id, b);
    forall k | 0 <= k < |ms| ensures left[k] == right[k] {
      if ms[k].id == id {
        assert left[k] == once[k].(text := b, isThinking := false);
        assert right[k] == ms[k].(text := b, isThinking := false);
      }
    }
  }

  /** The transcript once the placeholder has been appended to `base` and the chunks
      whose concatenation is `text` have been folded into it. */
  function AfterChunks(base: seq<ChatMessage>, replyId: MessageId, text: string): seq<ChatMessage> {
    var withReply := base + [Placeholder(replyId)];
    if text == "" then withReply else Restamp(withReply, replyId, text)
  }

  /** Folding one more non-empty chunk rewrites the reply to the longer text. */
  lemma AfterChunksStep(base: seq<ChatMessage>, replyId: MessageId, text: string, t: string)
    requires t != ""
    ensures Restamp(AfterChunks(base, replyId, text), replyId, text + t)
         == AfterChunks(base, replyId, text + t)
  {
    if text != "" {
      RestampTwice(base + [Placeholder(replyId)], replyId, text, text + t);
    }
  }

  /** The transcript once an exchange that started from `base` (which already holds the
      user message) has settled. */
  function Settled(base: seq<ChatMessage>, replyId: MessageId, stream: Stream): seq<ChatMessage> {
    match stream
    case FailsToOpen => base
    case Opened(chunks, _) => AfterChunks(base, replyId, Folded(chunks))
  }

  /** Whatever the ids: an exchange appends at most one message, the reply, with role model
      and the folded text, and leaves every earlier message whose id differs untouched. */
  lemma SettledShape(base: seq<ChatMessage>, replyId: MessageId, stream: Stream)
    ensures var r := Settled(base, replyId, stream);
      |r| == |base| + (if stream.Opened? then 1 else 0) &&
      (forall k | 0 <= k < |base| && base[k].id != replyId :: r[k] == base[k]) &&
      (stream.Opened? ==>
        r[|base|].id == replyId && r[|base|].role == Model && !r[|base|].showOverview &&
        r[|base|].text == Folded(stream.chunks) &&
        r[|base|].isThinking == (Folded(stream.chunks) == ""))
  {
    if stream.Opened? {
      var withReply := base + [Placeholder(replyId)];
      assert withReply[|base|] == Placeholder(replyId);
      assert forall k | 0 <= k < |base| :: withReply[k] == base[k];
    }
  }

  /** When the reply id is fresh: the transcript before the exchange is kept as a prefix,
      and exactly one model message follows it, whose text is the in-order concatenation of
      the non-empty chunks, however the stream ended. */
  lemma SettledWithFreshId(base: seq<ChatMessage>, replyId: MessageId, stream: Stream)
    requires forall k | 0 <= k < |base| :: base[k].id != replyId
    ensures stream.FailsToOpen? ==> Settled(base, replyId, stream) == base
    ensures stream.Opened? ==>
      var text := Folded(stream.chunks);
      Settled(base, replyId, stream) == base + [ChatMessage(replyId, Model, text, text == "", false)]
  {
    if stream.Opened? {
      var text := Folded(stream.chunks);
      var r := Settled(base, replyId, stream);
      var expected := base + [ChatMessage(replyId, Model, text, text == "", false)];
      SettledShape(base, replyId, stream);
      assert |r| == |expected|;
      forall k | 0 <= k < |r| ensures r[k] == expected[k] {
        if k < |base| {
          assert r[k] == base[k];
        }
      }
    }
  }

  // ---------------------------------------------------------------------------------
  // The screen's state

  class ChatView {
    var messages: seq<ChatMessage>
    var input: string
    var isTyping: bool
    /** The health snapshot the remote session is created with; fixed for the screen's life. */
    const healthContext: string

    /** The greeting stays first and unchanged, and no other message shows the overview. */
    ghost predicate Valid()
      reads this
    {
      |messages| >= 1 && messages[0] == Greeting &&
      forall k | 1 <= k < |messages| :: !messages[k].showOverview
    }

    /** The screen opens with the greeting alone, an empty input and nothing in flight. */
    constructor (healthContext: string)
      ensures Valid()
      ensures messages == [Greeting] && input == "" && !isTyping
      ensures this.healthContext == healthContext
    {
      messages := [Greeting];
      input := "";
      isTyping := false;
      this.healthContext := healthContext;
    }

    /** Typing in the input box. */
    method SetInput(value: string)
      modifies this
      ensures input == value
      ensures messages == old(messages) && isTyping == old(isTyping)
    {
      input := value;
    }

    /** The guard and the synchronous start of a send: a blank text, or any text while a
        reply is in flight, is ignored; otherwise the untrimmed text is appended as a user
        message, the input is cleared and the flag is raised. */
    method Submit(msgText: string, sendClock: int) returns (started: bool)
      requires Valid()
      modifies this
      ensures Valid()
      ensures started <==> !Blank(msgText) && !old(isTyping)
      ensures started ==>
        messages == old(messages) + [UserMessage(Clock(sendClock), msgText)] &&
        input == "" && isTyping
      ensures !started ==>
        messages == old(messages) && input == old(input) && isTyping == old(isTyping)
    {
      if Trim(msgText) == "" || isTyping {
        return false;
      }
      messages := messages + [UserMessage(Clock(sendClock), msgText)];
      input := "";
      isTyping := true;
      started := true;
    }

    /** Once the stream is open: append the empty, thinking reply placeholder. */
    method OpenReply(replyId: MessageId)
      requires Valid() && replyId.Clock?
      modifies this
      ensures Valid()
      ensures messages == old(messages) + [Placeholder(replyId)]
      ensures input == old(input) && isTyping == old(isTyping)
    {
      messages := messages + [Placeholder(replyId)];
    }

    /** One chunk of the stream: an absent or empty chunk changes nothing; otherwise the
        accumulated text grows by the chunk and every message with the reply's id is
        rewritten to it. The transcript keeps its length. */
    method FoldChunk(replyId: MessageId, fullResponse: string, chunk: Option<string>)
      returns (newResponse: string)
      requires Valid() && replyId.Clock?
      modifies this
      ensures Valid()
      ensures newResponse == fullResponse + ChunkText(chunk)
      ensures messages ==
        if ChunkText(chunk) == "" then old(messages) else Restamp(old(messages), replyId, newResponse)
      ensures |messages| == |old(messages)|
      ensures forall k | 0 <= k < |messages| && old(messages)[k].id != replyId ::
        messages[k] == old(messages)[k]
      ensures input == old(input) && isTyping == old(isTyping)
    {
      newResponse := fullResponse;
      match chunk {
        case Some(chunkText) =>
          if chunkText != "" {
            newResponse := fullResponse + chunkText;
            messages := Restamp(messages, replyId, newResponse);
          }
        case None =>
      }
    }

    /** The `catch` / `finally` of a send: the flag is lowered; the transcript is kept. */
    method Settle()
      modifies this
      ensures !isTyping
      ensures messages == old(messages) && input == old(input)
    {
      isTyping := false;
    }

    /** A whole send. `msgText` is the argument, absent when the text comes from the input
        box; `sendClock` and `replyClock` are the clock readings taken before the user
        message and after the stream opens. */
    method HandleSend(msgText: Option<string>, sendClock: int, replyClock: int, stream: Stream)
      requires Valid()
      modifies this
      ensures Valid()
      ensures var text := msgText.GetOr(old(input));
        if Blank(text) || old(isTyping) then
          messages == old(messages) && input == old(input) && isTyping == old(isTyping)
        else
          !isTyping && input == "" &&
          messages == Settled(old(messages) + [UserMessage(Clock(sendClock), text)],
                              Clock(replyClock + 1), stream)
    {
      var text := msgText.GetOr(input);
      ghost var base := messages + [UserMessage(Clock(sendClock), text)];
      var started := Submit(text, sendClock);
      if !started {
        return;
      }
      match stream {
        case FailsToOpen =>
          Settle();  // catch
          Settle();  // finally
        case Opened(chunks, ending) =>
          var responseMsgId := Clock(replyClock + 1);
          OpenReply(responseMsgId);
          var fullResponse := "";
          var i := 0;
          while i < |chunks|
            invariant 0 <= i <= |chunks|
            invariant Valid() && isTyping && input == ""
            invariant fullResponse == Folded(chunks[..i])
            invariant messages == AfterChunks(base, responseMsgId, fullResponse)
          {
            assert chunks[..i + 1] == chunks[..i] + [chunks[i]];
            FoldedSnoc(chunks[..i], chunks[i]);
            if ChunkText(chunks[i]) != "" {
              AfterChunksStep(base, responseMsgId, fullResponse, ChunkText(chunks[i]));
            }
            ghost var prev := messages;
            fullResponse := FoldChunk(responseMsgId, fullResponse, chunks[i]);
            assert ChunkText(chunks[i]) == "" ==> messages == prev && fullResponse == Folded(chunks[..i]);
            assert ChunkText(chunks[i]) != "" ==> messages == Restamp(prev, responseMsgId, fullResponse);
            i := i + 1;
          }
          assert chunks[..i] == chunks;
          if ending == Failed {
            Settle();  // catch
          }
          Settle();  // finally
      }
    }
  }

  /** A send made while a reply is streaming is ignored: the transcript and the flag are
      untouched by it, the reply goes on folding into its own message, and once the stream
      fails part-way the partial text is kept and a new send is possible. */
  method SendWhileStreaming(view: ChatView, firstClock: int, replyClock: int, laterClock: int)
    requires view.Valid() && !view.isTyping
    requires forall k | 0 <= k < |view.messages| :: view.messages[k].id != Clock(replyClock + 1)
    requires firstClock != replyClock + 1
    modifies view
    ensures view.Valid() && !view.isTyping
    ensures view.messages == old(view.messages) +
      [UserMessage(Clock(firstClock), "hello"), ChatMessage(Clock(replyClock + 1), Model, "Par", false, false)]
  {
    var replyId := Clock(replyClock + 1);
    var started := view.Submit("hello", firstClock);
    assert !Blank("hello") by {
      assert !IsWhiteSpace("hello"[0]);
    }
    var base := view.messages;
    assert base == old(view.messages) + [UserMessage(Clock(firstClock), "hello")];
    view.OpenReply(replyId);
    var text := view.FoldChunk(replyId, "", Some("Par"));
    ghost var midway := view.messages;
    var second := view.Submit("again", laterClock);
    assert !second && view.messages == midway;
    FoldedSnoc([], Some("Par"));
    assert [] + [Some("Par")] == [Some("Par")];
    assert Folded([Some("Par")]) == "Par";
    assert midway == AfterChunks(base, replyId, "Par");
    SettledWithFreshId(base, replyId, Opened([Some("Par")], Failed));
    assert midway == base + [ChatMessage(replyId, Model, "Par", false, false)];
    view.Settle();
    view.Settle();
  }
}
