/**
 * The chat view's transcript reducer. The transcript is a sequence of turns,
 * each a role and its text (`parts`); a submit appends the user's trimmed
 * message and an empty assistant placeholder, every streamed chunk is
 * appended to the last turn only, a failure overwrites the last turn with a
 * fixed apology, and the in-flight guard is cleared at the end either way.
 */
module Chat {
  import opened Wrappers

  datatype Role = User | Assistant

  /** One turn of the transcript. */
  datatype Message = Message(role: Role, parts: string)

  const Greeting: string :=
    "Hi! I'm your AI Tutor. Ask me anything about the document or video you just provided."

  const Apology: string := "Sorry, I encountered an error while processing your request."

  /** The transcript a fresh chat view starts with: the assistant's greeting alone. */
  const InitialTranscript: seq<Message> := [Message(Assistant, Greeting)]

  /** The JSON body of the request to the chat endpoint. */
  datatype ChatRequest = ChatRequest(documentId: string, message: string, history: seq<Message>)

  /** How the response stream ended after its chunks: read to the end, or failed. */
  datatype StreamEnd = Completed | Failed

  /**
   * A response as the read loop sees it: the already-decoded text chunks in
   * delivery order, then either the end of the stream or a failure. A failure
   * before any chunk (network error, non-success status, no body) has no chunks.
   */
  datatype Response = Response(chunks: seq<string>, end: StreamEnd)

  // ---------------------------------------------------------------------------
  // String.prototype.trim

  /** ECMAScript WhiteSpace and LineTerminator code points, the characters `trim` removes. */
  predicate IsJsWhitespace(c: char) {
    var n := c as int;
    n == 0x09 || n == 0x0A || n == 0x0B || n == 0x0C || n == 0x0D || n == 0x20 || n == 0xA0
    || n == 0x1680 || (0x2000 <= n <= 0x200A) || n == 0x2028 || n == 0x2029 || n == 0x202F
    || n == 0x205F || n == 0x3000 || n == 0xFEFF
  }

  predicate AllWhitespace(s: string) {
    forall i :: 0 <= i < |s| ==> IsJsWhitespace(s[i])
  }

  /** `s` without its leading whitespace: the longest suffix that does not start with whitespace. */
  function TrimStart(s: string): (r: string)
    ensures |r| <= |s| && r == s[|s| - |r|..]
    ensures AllWhitespace(s[..|s| - |r|])
    ensures r == [] || !IsJsWhitespace(r[0])
  {
    if s != [] && IsJsWhitespace(s[0]) then TrimStart(s[1..]) else s
  }

  /** `s` without its trailing whitespace: the longest prefix that does not end with whitespace. */
  function TrimEnd(s: string): (r: string)
    ensures |r| <= |s| && r == s[..|r|]
    ensures AllWhitespace(s[|r|..])
    ensures r == [] || !IsJsWhitespace(r[|r| - 1])
  {
    if s != [] && IsJsWhitespace(s[|s| - 1]) then TrimEnd(s[..|s| - 1]) else s
  }

  /** `String.prototype.trim`. */
  function Trim(s: string): (r: string)
    ensures |r| <= |s|
    ensures r == [] || (!IsJsWhitespace(r[0]) && !IsJsWhitespace(r[|r| - 1]))
  {
    TrimEnd(TrimStart(s))
  }

  /**
   * What `trim` removes and keeps: the result is a contiguous piece of `s`,
   * everything around it is whitespace, and it neither starts nor ends with
   * whitespace.
   */
  lemma TrimSpec(s: string)
    ensures exists a, b :: 0 <= a <= b <= |s| && Trim(s) == s[a..b] && AllWhitespace(s[..a]) && AllWhitespace(s[b..])
    ensures Trim(s) == [] || (!IsJsWhitespace(Trim(s)[0]) && !IsJsWhitespace(Trim(s)[|Trim(s)| - 1]))
  {
    var a, b := TrimBounds(s);
  }

  /** The bounds of the piece `trim` keeps. */
  lemma TrimBounds(s: string) returns (a: nat, b: nat)
    ensures a <= b <= |s| && Trim(s) == s[a..b]
    ensures AllWhitespace(s[..a]) && AllWhitespace(s[b..])
  {
    var t := TrimStart(s);
    var r := TrimEnd(t);
    a := |s| - |t|;
    b := a + |r|;
    PrefixOfSuffix(s, a, r);
    assert s[b..] == t[|r|..] && AllWhitespace(t[|r|..]);
  }

  /** A prefix `r` of the suffix of `s` from `a` is the piece of `s` from `a` to `a + |r|`. */
  lemma PrefixOfSuffix(s: string, a: nat, r: string)
    requires a <= |s| && |r| <= |s| - a && r == s[a..][..|r|]
    ensures s[a..a + |r|] == r && s[a + |r|..] == s[a..][|r|..]
  {
  }

  /** Leading whitespace is all `TrimStart` drops, so an all-whitespace string loses everything. */
  lemma {:induction false} TrimStartAllWhitespace(s: string)
    requires AllWhitespace(s)
    ensures TrimStart(s) == []
  {
    if s != [] {
      TrimStartAllWhitespace(s[1..]);
    }
  }

  /** A message trims to nothing exactly when it is all whitespace: the submit guard `!input.trim()`. */
  lemma TrimEmptyIff(s: string)
    ensures Trim(s) == [] <==> AllWhitespace(s)
  {
    if AllWhitespace(s) {
      TrimStartAllWhitespace(s);
    }
    if Trim(s) == [] {
      var t := TrimStart(s);
      assert AllWhitespace(t) by {
        assert t[0..] == t;
      }
      assert t == [];
      assert s[..|s|] == s;
    }
  }

  /** A string that neither starts nor ends with whitespace is its own trim. */
  lemma TrimUntouched(s: string)
    requires s != [] && !IsJsWhitespace(s[0]) && !IsJsWhitespace(s[|s| - 1])
    ensures Trim(s) == s
  {
  }

  /** Trimming twice is trimming once. */
  lemma TrimIdempotent(s: string)
    ensures Trim(Trim(s)) == Trim(s)
  {
    var r := Trim(s);
    if r != [] {
      assert TrimStart(r) == r;
      assert TrimEnd(r) == r;
    }
  }

  // ---------------------------------------------------------------------------
  // The `setMessages` updaters

  /** The chunks of a response joined in delivery order: the text they add up to. */
  function Concat(chunks: seq<string>): string {
    if chunks == [] then "" else Concat(chunks[..|chunks| - 1]) + chunks[|chunks| - 1]
  }

  /**
   * The updater a chunk applies: the last turn's text extended by `chunk`,
   * its role kept, every earlier turn untouched.
   */
  function AppendToLast(prev: seq<Message>, chunk: string): (r: seq<Message>)
    requires prev != []
    ensures |r| == |prev|
    ensures forall i :: 0 <= i < |prev| - 1 ==> r[i] == prev[i]
    ensures r[|r| - 1].role == prev[|prev| - 1].role
    ensures r[|r| - 1].parts == prev[|prev| - 1].parts + chunk
  {
    var last := prev[|prev| - 1];
    prev[..|prev| - 1] + [last.(parts := last.parts + chunk)]
  }

  /**
   * The updater a failure applies: the last turn's text replaced by `text`
   * (whatever had streamed in is dropped), its role kept, every earlier turn
   * untouched.
   */
  function ReplaceLast(prev: seq<Message>, text: string): (r: seq<Message>)
    requires prev != []
    ensures |r| == |prev|
    ensures forall i :: 0 <= i < |prev| - 1 ==> r[i] == prev[i]
    ensures r[|r| - 1].role == prev[|prev| - 1].role
    ensures r[|r| - 1].parts == text
  {
    var last := prev[|prev| - 1];
    prev[..|prev| - 1] + [last.(parts := text)]
  }

  /**
   * Chunks applied one after another land in the last turn in delivery
   * order: after all of them its text is the old text followed by their
   * concatenation, and nothing else has changed.
   */
  lemma {:induction false} AppendChunksInOrder(prev: seq<Message>, chunks: seq<string>)
    requires prev != []
    ensures AppendToLast(prev, Concat(chunks)) == FoldChunks(prev, chunks)
    decreases |chunks|
  {
    if chunks != [] {
      var init := chunks[..|chunks| - 1];
      var c := chunks[|chunks| - 1];
      AppendChunksInOrder(prev, init);
      if c == "" {
        assert Concat(chunks) == Concat(init) + "" == Concat(init);
      } else {
        AppendTwice(prev, Concat(init), c);
      }
    } else {
      var last := prev[|prev| - 1];
      assert last.parts + "" == last.parts;
      assert prev[..|prev| - 1] + [last] == prev;
    }
  }

  /** Two appends to the last turn are one append of both texts. */
  lemma AppendTwice(prev: seq<Message>, x: string, y: string)
    requires prev != []
    ensures AppendToLast(AppendToLast(prev, x), y) == AppendToLast(prev, x + y)
  {
    var last := prev[|prev| - 1];
    var before := prev[..|prev| - 1];
    UpdateAppended(before, last.(parts := last.parts + x), y, "");
    assert last.parts + x + y == last.parts + (x + y);
  }

  /** The transcript after the updaters of `chunks` have run in order, empty chunks skipped as the read loop does. */
  function FoldChunks(prev: seq<Message>, chunks: seq<string>): (r: seq<Message>)
    requires prev != []
    ensures |r| == |prev|
    decreases |chunks|
  {
    if chunks == [] then prev
    else
      var before := FoldChunks(prev, chunks[..|chunks| - 1]);
      var c := chunks[|chunks| - 1];
      if c == "" then before else AppendToLast(before, c)
  }

  /** The updaters act on the last turn of a transcript built by appending that turn. */
  lemma UpdateAppended(before: seq<Message>, last: Message, chunk: string, text: string)
    ensures AppendToLast(before + [last], chunk) == before + [last.(parts := last.parts + chunk)]
    ensures ReplaceLast(before + [last], text) == before + [last.(parts := text)]
  {
    assert (before + [last])[..|before|] == before;
  }

  /** The transcript a submitted `message` ends with, given how its response went. */
  function AfterSubmit(transcript: seq<Message>, message: string, response: Response): seq<Message> {
    transcript + [Message(User, message),
                  Message(Assistant, if response.end == Completed then Concat(response.chunks) else Apology)]
  }

  /**
   * The whole reducer over one accepted submit: the placeholder transcript,
   * then every chunk's updater, then the failure updater if the stream
   * failed, gives the transcript followed by the user's turn and the
   * assistant's turn holding either all chunks in order or the apology.
   */
  lemma SubmittedTranscript(transcript: seq<Message>, message: string, response: Response)
    ensures var placeholder := transcript + [Message(User, message), Message(Assistant, "")];
            var streamed := FoldChunks(placeholder, response.chunks);
            (if response.end == Completed then streamed else ReplaceLast(streamed, Apology))
              == AfterSubmit(transcript, message, response)
  {
    var before := transcript + [Message(User, message)];
    var placeholder := transcript + [Message(User, message), Message(Assistant, "")];
    assert placeholder == before + [Message(Assistant, "")];
    var text := Concat(response.chunks);
    AppendChunksInOrder(placeholder, response.chunks);
    UpdateAppended(before, Message(Assistant, ""), text, Apology);
    assert "" + text == text;
    UpdateAppended(before, Message(Assistant, text), "", Apology);
  }

  // ---------------------------------------------------------------------------
  // The view's state

  class ChatSession {
    const documentId: string
    var messages: seq<Message>
    var input: string
    var isTyping: bool

    /**
     * The greeting stays first; while a request is in flight the transcript
     * ends with the user's turn and then the open assistant turn.
     */
    ghost predicate Valid()
      reads this
    {
      messages != [] && messages[0] == Message(Assistant, Greeting) &&
      (isTyping ==> |messages| >= 3 && messages[|messages| - 2].role == User && messages[|messages| - 1].role == Assistant)
    }

    constructor (documentId: string)
      ensures Valid()
      ensures this.documentId == documentId && messages == InitialTranscript && input == "" && !isTyping
    {
      this.documentId := documentId;
      messages := InitialTranscript;
      input := "";
      isTyping := false;
    }

    /** Typing into the input box, which is disabled while a request is in flight. */
    method Type(text: string)
      requires Valid() && !isTyping
      modifies this
      ensures Valid()
      ensures input == text && messages == old(messages) && !isTyping
    {
      input := text;
    }

    /**
     * The synchronous start of `handleSubmit`: refused when the trimmed input
     * is empty or a request is in flight; otherwise the trimmed input becomes
     * a user turn followed by an empty assistant placeholder, the input is
     * cleared, the guard set, and the request carries the transcript as it
     * was before the submit, without its greeting.
     */
    method BeginSubmit() returns (request: Option<ChatRequest>)
      requires Valid()
      modifies this
      ensures Valid()
      ensures Trim(old(input)) == "" || old(isTyping) ==> request == None && unchanged(this)
      ensures Trim(old(input)) != "" && !old(isTyping) ==>
                request == Some(ChatRequest(documentId, Trim(old(input)), old(messages)[1..])) &&
                messages == old(messages) + [Message(User, Trim(old(input))), Message(Assistant, "")] &&
                input == "" && isTyping
    {
      var userMessage := Trim(input);
      if userMessage == "" || isTyping {
        return None;
      }
      var history := messages;
      messages := history + [Message(User, userMessage), Message(Assistant, "")];
      assert messages[0] == history[0] && messages[|messages| - 2].role == User;
      input := "";
      isTyping := true;
      request := Some(ChatRequest(documentId, userMessage, history[1..]));
    }

    /** One decoded chunk from the stream: a non-empty one is appended to the open last turn. */
    method ReceiveChunk(chunk: string)
      requires Valid() && isTyping
      modifies this
      ensures Valid() && isTyping
      ensures messages == if chunk == "" then old(messages) else AppendToLast(old(messages), chunk)
      ensures input == old(input)
    {
      if chunk != "" {
        messages := AppendToLast(messages, chunk);
      }
    }

    /** The end of the request: on failure the open turn becomes the apology; the guard is cleared either way. */
    method Finish(end: StreamEnd)
      requires Valid() && isTyping
      modifies this
      ensures Valid() && !isTyping
      ensures messages == if end == Completed then old(messages) else ReplaceLast(old(messages), Apology)
      ensures input == old(input)
    {
      if end == Failed {
        messages := ReplaceLast(messages, Apology);
      }
      isTyping := false;
    }

    /**
     * A whole submit against a given response: when accepted, the transcript
     * gains the user's turn and an assistant turn holding the chunks in
     * delivery order, or the apology on failure; the guard, set while the
     * response streams in, is clear again afterwards.
     */
    method Submit(response: Response) returns (request: Option<ChatRequest>)
      requires Valid()
      modifies this
      ensures Valid() && isTyping == old(isTyping)
      ensures Trim(old(input)) == "" || old(isTyping) ==> request == None && unchanged(this)
      ensures Trim(old(input)) != "" && !old(isTyping) ==>
                request == Some(ChatRequest(documentId, Trim(old(input)), old(messages)[1..])) &&
                messages == AfterSubmit(old(messages), Trim(old(input)), response) &&
                input == ""
    {
      request := BeginSubmit();
      if request == None {
        return;
      }
      StreamChunks(response.chunks);
      SubmittedTranscript(old(messages), Trim(old(input)), response);
      Finish(response.end);
    }

    /** The `while (!done)` read loop: each chunk in delivery order goes through `ReceiveChunk`. */
    method StreamChunks(chunks: seq<string>)
      requires Valid() && isTyping
      modifies this
      ensures Valid() && isTyping
      ensures messages == FoldChunks(old(messages), chunks)
      ensures input == old(input)
    {
      var i := 0;
      while i < |chunks|
        invariant 0 <= i <= |chunks|
        invariant Valid() && isTyping && input == old(input)
        invariant messages == FoldChunks(old(messages), chunks[..i])
      {
        ReceiveChunk(chunks[i]);
        assert chunks[..i + 1][..i] == chunks[..i];
        i := i + 1;
      }
      assert chunks[..i] == chunks;
    }
  }

  /**
   * A question without surrounding whitespace, such as "What is X?", answered
   * in the two chunks "X is " and "Y.": the transcript ends with the
   * assistant's turn "X is Y." and the request carried no history.
   */
  method TwoChunkScenario(question: string)
    requires question != [] && !IsJsWhitespace(question[0]) && !IsJsWhitespace(question[|question| - 1])
  {
    var chat := new ChatSession("doc");
    TrimUntouched(question);
    chat.Type(question);
    assert chat.messages[1..] == [];
    var request := chat.Submit(Response(["X is ", "Y."], Completed));
    assert request == Some(ChatRequest("doc", question, []));
    assert Concat(["X is ", "Y."]) == "X is Y.";
    assert chat.messages == InitialTranscript + [Message(User, question), Message(Assistant, "X is Y.")];
    assert !chat.isTyping;
  }
}
