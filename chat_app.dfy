/**
 * The chat page of streamlit_app.py: the model list offered in the
 * sidebar, the file content kept for the prompt, the messages sent to the
 * completion service, the streamed reply, and the chat history.
 */
module ChatApp {
  import opened Wrappers
  import opened Text

  // ---------------------------------------------------------------------
  // The model list
  // ---------------------------------------------------------------------

  const GptMarker: string := "gpt-"
  const ClaudeMarker: string := "claude-"

  /** A chat model id contains `gpt-` or `claude-` anywhere. */
  predicate IsChatModel(id: string)
  {
    Contains(id, GptMarker) || Contains(id, ClaudeMarker)
  }

  /** The chat model ids among `ids`, in their listed order. */
  function ChatModels(ids: seq<string>): (r: seq<string>)
    ensures forall x :: x in r <==> x in ids && IsChatModel(x)
    ensures forall x {:trigger multiset(r)[x]} :: multiset(r)[x] == if IsChatModel(x) then multiset(ids)[x] else 0
  {
    if ids == [] then []
    else
      var rest := ChatModels(ids[1..]);
      assert ids == [ids[0]] + ids[1..];
      (if IsChatModel(ids[0]) then [ids[0]] else []) + rest
  }

  /** Python's `a <= b` on strings: code points compared left to right, a prefix first. */
  predicate LexLe(a: string, b: string)
    decreases |a|
  {
    a == [] || (b != [] && (a[0] < b[0] || (a[0] == b[0] && LexLe(a[1..], b[1..]))))
  }

  lemma {:induction false} LexLeTotal(a: string, b: string)
    ensures LexLe(a, b) || LexLe(b, a)
    decreases |a|
  {
    if a != [] && b != [] && a[0] == b[0] {
      LexLeTotal(a[1..], b[1..]);
    }
  }

  lemma {:induction false} LexLeTrans(a: string, b: string, c: string)
    requires LexLe(a, b) && LexLe(b, c)
    ensures LexLe(a, c)
    decreases |a|
  {
    if a != [] && a[0] == b[0] && b[0] == c[0] {
      LexLeTrans(a[1..], b[1..], c[1..]);
    }
  }

  lemma {:induction false} LexLeAntisym(a: string, b: string)
    requires LexLe(a, b) && LexLe(b, a)
    ensures a == b
    decreases |a|
  {
    if a != [] {
      LexLeAntisym(a[1..], b[1..]);
      assert a == [a[0]] + a[1..] && b == [b[0]] + b[1..];
    }
  }

  /** Each element is at least the next one: the order of `sorted(..., reverse=True)`. */
  predicate Descending(s: seq<string>)
  {
    forall i :: 0 < i < |s| ==> LexLe(s[i], s[i - 1])
  }

  /** Insert `x` into a descending list, before the first element not above it. */
  function Insert(x: string, s: seq<string>): (r: seq<string>)
    requires Descending(s)
    ensures Descending(r) && multiset(r) == multiset(s) + multiset{x}
    ensures |r| == |s| + 1 && (r[0] == x || (s != [] && r[0] == s[0]))
  {
    if s == [] then [x]
    else if LexLe(s[0], x) then [x] + s
    else
      LexLeTotal(s[0], x);
      var rest := Insert(x, s[1..]);
      assert s == [s[0]] + s[1..];
      [s[0]] + rest
  }

  /** The ids in descending order, by insertion. */
  function SortDescending(s: seq<string>): (r: seq<string>)
    ensures Descending(r) && multiset(r) == multiset(s)
  {
    if s == [] then []
    else
      assert s == [s[0]] + s[1..];
      Insert(s[0], SortDescending(s[1..]))
  }

  /** The head of a descending list is its greatest element. */
  lemma {:induction false} DescendingHeadIsMax(s: seq<string>)
    requires Descending(s) && s != []
    ensures forall y :: y in s ==> LexLe(y, s[0])
  {
    if |s| == 1 {
      LexLeTotal(s[0], s[0]);
    } else {
      DescendingHeadIsMax(s[1..]);
      forall y | y in s ensures LexLe(y, s[0]) {
        if y == s[0] {
          LexLeTotal(y, y);
        } else {
          assert y in s[1..];
          LexLeTrans(y, s[1], s[0]);
        }
      }
    }
  }

  /**
   * A descending order of a list is unique, so SortDescending agrees with
   * any other way of sorting in reverse.
   */
  lemma {:induction false} DescendingUnique(a: seq<string>, b: seq<string>)
    requires Descending(a) && Descending(b) && multiset(a) == multiset(b)
    ensures a == b
    decreases |a|
  {
    if a != [] {
      SameHeads(a, b);
      TailMultiset(a);
      TailMultiset(b);
      DescendingUnique(a[1..], b[1..]);
      assert a == [a[0]] + a[1..] && b == [b[0]] + b[1..];
    }
  }

  lemma TailMultiset(s: seq<string>)
    requires s != []
    ensures multiset(s[1..]) == multiset(s) - multiset{s[0]}
  {
    assert s == [s[0]] + s[1..];
  }

  lemma SameHeads(a: seq<string>, b: seq<string>)
    requires Descending(a) && Descending(b) && multiset(a) == multiset(b) && a != []
    ensures b != [] && a[0] == b[0]
  {
    assert |b| == |multiset(b)| == |a|;
    assert a[0] in multiset(b) && b[0] in multiset(a);
    DescendingHeadIsMax(a);
    DescendingHeadIsMax(b);
    LexLeAntisym(a[0], b[0]);
  }

  const FallbackModels: seq<string> := ["gpt-4o", "gpt-4-turbo", "gpt-4", "gpt-3.5-turbo"]

  /**
   * `get_available_models`, given the ids the service lists (None when
   * listing raised): the chat models, newest name first, or the fixed list.
   */
  function AvailableModels(listing: Option<seq<string>>): (r: seq<string>)
    ensures listing.None? ==> r == FallbackModels
    ensures listing.Some? ==>
      && Descending(r)
      && (forall x :: x in r <==> x in listing.value && IsChatModel(x))
      && multiset(r) == multiset(ChatModels(listing.value))
  {
    match listing
    case None => FallbackModels
    case Some(ids) =>
      var chat := ChatModels(ids);
      var r := SortDescending(chat);
      assert forall x :: x in r <==> x in multiset(r);
      assert forall x :: x in chat <==> x in multiset(chat);
      r
  }

  /** The fixed list is itself in descending order. */
  lemma FallbackDescending()
    ensures Descending(FallbackModels)
  {
    assert LexLe(FallbackModels[1], FallbackModels[0]) by {
      assert FallbackModels[1][..5] == FallbackModels[0][..5];
      assert FallbackModels[1][5] == '-' && FallbackModels[0][5] == 'o';
      PrefixThenLess(FallbackModels[1], FallbackModels[0], 5);
    }
    assert LexLe(FallbackModels[2], FallbackModels[1]) by {
      assert FallbackModels[2] == FallbackModels[1][..5];
      PrefixLe(FallbackModels[2], FallbackModels[1]);
    }
    assert LexLe(FallbackModels[3], FallbackModels[2]) by {
      assert FallbackModels[3][..4] == FallbackModels[2][..4];
      assert FallbackModels[3][4] == '3' && FallbackModels[2][4] == '4';
      PrefixThenLess(FallbackModels[3], FallbackModels[2], 4);
    }
  }

  lemma {:induction false} PrefixThenLess(a: string, b: string, k: nat)
    requires k < |a| && k < |b| && a[..k] == b[..k] && a[k] < b[k]
    ensures LexLe(a, b)
    decreases k
  {
    if k > 0 {
      assert a[0] == a[..k][0] == b[..k][0] == b[0];
      assert a[1..][..k - 1] == a[..k][1..] && b[1..][..k - 1] == b[..k][1..];
      PrefixThenLess(a[1..], b[1..], k - 1);
    }
  }

  lemma {:induction false} PrefixLe(a: string, b: string)
    requires |a| <= |b| && b[..|a|] == a
    ensures LexLe(a, b)
    decreases |a|
  {
    if a != [] {
      assert b[1..][..|a| - 1] == a[1..];
      PrefixLe(a[1..], b[1..]);
    }
  }

  /** The select box starts at index 0 whether or not `gpt-4o` is listed. */
  function SelectedModel(models: seq<string>): (r: Option<string>)
    ensures r.Some? <==> models != []
    ensures r.Some? ==> r.value in models
  {
    if models == [] then None else Some(models[0])
  }

  /**
   * With a listing, the model selected first is the greatest chat model id
   * in code-point order (not the most recent one).
   */
  lemma SelectedIsGreatest(ids: seq<string>)
    requires ChatModels(ids) != []
    ensures var r := SelectedModel(AvailableModels(Some(ids)));
      && r.Some? && r.value in ids && IsChatModel(r.value)
      && forall y :: y in ids && IsChatModel(y) ==> LexLe(y, r.value)
  {
    var models := AvailableModels(Some(ids));
    var x := ChatModels(ids)[0];
    assert x in multiset(models);
    DescendingHeadIsMax(models);
  }

  // ---------------------------------------------------------------------
  // Messages
  // ---------------------------------------------------------------------

  datatype Role = User | Assistant | System

  /** A chat message, `{"role": ..., "content": ...}`. */
  datatype Message = Message(role: Role, content: string)

  /**
   * `st.session_state.file_content`: never set, set to None, or set to the
   * text read from the uploaded file.
   */
  datatype FileContent = Unset | NoContent | Content(text: string)

  /** Whether the file content is truthy: set to a non-empty text. */
  predicate HasFileText(fc: FileContent)
  {
    fc.Content? && fc.text != ""
  }

  const SystemOpening: string := "The user has uploaded a file with the following content:\n\n"
  const SystemClosing: string :=
      "\n\nPlease consider this information when responding "
    + "to their queries."

  function SystemMessage(text: string): Message
  {
    Message(System, SystemOpening + text + SystemClosing)
  }

  /** The messages sent for a history: the file's system message when there is file text, then the history. */
  function ApiMessages(fc: FileContent, history: seq<Message>): seq<Message>
  {
    (if HasFileText(fc) then [SystemMessage(fc.text)] else []) + history
  }

  /** The `messages_for_api` loop, copying the history one message at a time. */
  method BuildApiMessages(fc: FileContent, history: seq<Message>) returns (api: seq<Message>)
    ensures api == ApiMessages(fc, history)
  {
    api := [];
    if HasFileText(fc) {
      api := api + [SystemMessage(fc.text)];
    }
    var offset := |api|;
    var i := 0;
    while i < |history|
      invariant 0 <= i <= |history|
      invariant |api| == offset + i
      invariant api[..offset] == (if HasFileText(fc) then [SystemMessage(fc.text)] else [])
      invariant api[offset..] == history[..i]
    {
      var message := history[i];
      api := api + [Message(message.role, message.content)];
      assert api[offset..] == history[..i] + [history[i]];
      i := i + 1;
    }
    assert history[..i] == history;
    assert api == api[..offset] + api[offset..];
  }

  /**
   * The system message comes first exactly when there is file text and
   * embeds it; every history message follows, in order.
   */
  lemma ApiMessagesShape(fc: FileContent, history: seq<Message>)
    ensures var api := ApiMessages(fc, history);
      var offset := if HasFileText(fc) then 1 else 0;
      && |api| == |history| + offset
      && (HasFileText(fc) ==> api[0].role == System && Contains(api[0].content, fc.text))
      && forall k :: 0 <= k < |history| ==> api[k + offset] == history[k]
  {
    if HasFileText(fc) {
      ContainsInfix(SystemOpening, fc.text, SystemClosing);
    }
  }

  // ---------------------------------------------------------------------
  // The streamed reply
  // ---------------------------------------------------------------------

  /**
   * A streamed completion: the content of each chunk's first choice (None
   * when absent), and the error that ended the stream, if any, after
   * those chunks.
   */
  datatype Stream = Stream(chunks: seq<Option<string>>, failure: Option<string>)

  /** Whether a chunk adds text: its content is truthy. */
  predicate Adds(chunk: Option<string>)
  {
    chunk.Some? && chunk.value != ""
  }

  /** The text gathered from the chunks, in order, skipping empty ones. */
  function StreamText(chunks: seq<Option<string>>): string
  {
    if chunks == [] then ""
    else
      var last := chunks[|chunks| - 1];
      StreamText(chunks[..|chunks| - 1]) + (if Adds(last) then last.value else "")
  }

  /** The `full_response += chunk` loop over the streamed chunks. */
  method Accumulate(chunks: seq<Option<string>>) returns (full: string)
    ensures full == StreamText(chunks)
  {
    full := "";
    var i := 0;
    while i < |chunks|
      invariant 0 <= i <= |chunks|
      invariant full == StreamText(chunks[..i])
    {
      assert chunks[..i + 1][..i] == chunks[..i];
      if chunks[i].Some? && chunks[i].value != "" {
        full := full + chunks[i].value;
      }
      i := i + 1;
    }
    assert chunks[..i] == chunks;
  }

  /** Gathering distributes over a split of the stream. */
  lemma {:induction false} StreamTextAppend(a: seq<Option<string>>, b: seq<Option<string>>)
    ensures StreamText(a + b) == StreamText(a) + StreamText(b)
    decreases |b|
  {
    if b == [] {
      assert a + b == a;
    } else {
      var b' := b[..|b| - 1];
      var last := b[|b| - 1];
      var tail := if Adds(last) then last.value else "";
      assert (a + b)[..|a + b| - 1] == a + b';
      assert (a + b)[|a + b| - 1] == last;
      assert StreamText(a + b) == StreamText(a + b') + tail;
      StreamTextAppend(a, b');
      ConcatAssoc(StreamText(a), StreamText(b'), tail);
    }
  }

  /** One chunk contributes its text exactly when it is not empty. */
  lemma StreamTextSingle(chunk: Option<string>)
    ensures StreamText([chunk]) == if Adds(chunk) then chunk.value else ""
  {
    assert [chunk][..0] == [];
  }

  const ApologyPrefix: string := "I apologize, but an error occurred: "

  /** The assistant's message for a stream: the gathered text, or the apology naming the error. */
  function ReplyText(stream: Stream): (r: string)
    ensures stream.failure.Some? ==>
      StartsWith(r, ApologyPrefix) && r[|ApologyPrefix|..] == stream.failure.value
    ensures stream.failure.None? ==> r == StreamText(stream.chunks)
  {
    if stream.failure.Some? then
      var r := ApologyPrefix + stream.failure.value;
      assert r[..|ApologyPrefix|] == ApologyPrefix;
      assert r[|ApologyPrefix|..] == stream.failure.value;
      r
    else StreamText(stream.chunks)
  }

  /**
   * How a run of the chat page ends: nothing sent, a reply recorded, the
   * turn raised on unset file content, or the chat was cleared and the
   * page rerun before the input was read.
   */
  datatype TurnOutcome = Idle | Answered | Crashed | Cleared

  /**
   * The chat's session state: the history and the file content. A turn
   * appends the user's message and, unless it raises, the assistant's
   * reply; "Clear Chat" empties the history.
   */
  class ChatSession {
    var messages: seq<Message>
    var fileContent: FileContent

    /** A new session: an empty history; the file content is not yet set. */
    constructor()
      ensures messages == [] && fileContent == Unset
    {
      messages := [];
      fileContent := Unset;
    }

    /**
     * The sidebar's file handling, given whether a file is uploaded,
     * whether its content is to be included, and the text read from it
     * (None when reading raised). Without a file the content is None; a
     * file that is not included leaves the content as it was.
     */
    method SyncFile(uploaded: bool, includeFile: bool, read: Option<string>)
      modifies this
      ensures messages == old(messages)
      ensures fileContent == SyncedFile(old(fileContent), uploaded, includeFile, read)
    {
      if uploaded {
        if includeFile {
          if read.Some? {
            fileContent := Content(read.value);
          } else {
            fileContent := NoContent;
          }
        }
      } else {
        fileContent := NoContent;
      }
    }

    /** "Clear Chat": an empty history and no file content. */
    method ClearChat()
      modifies this
      ensures messages == [] && fileContent == NoContent
    {
      messages := [];
      fileContent := NoContent;
    }

    /**
     * One chat turn for the text typed (None or "" when nothing was sent),
     * with `respond` as the completion service for the messages sent. The
     * user's message is recorded before the call; reading unset file
     * content raises, and the turn ends there.
     */
    method Turn(input: Option<string>, respond: seq<Message> -> Stream) returns (outcome: TurnOutcome)
      modifies this
      ensures fileContent == old(fileContent)
      ensures outcome == TurnResult(old(fileContent), input)
      ensures messages == TurnHistory(old(messages), old(fileContent), input, respond)
    {
      if input.None? || input.value == "" {
        return Idle;
      }
      messages := messages + [Message(User, input.value)];
      if fileContent.Unset? {
        return Crashed;
      }
      var api := BuildApiMessages(fileContent, messages);
      var stream := respond(api);
      var fullResponse: string;
      if stream.failure.Some? {
        fullResponse := ApologyPrefix + stream.failure.value;
      } else {
        fullResponse := Accumulate(stream.chunks);
      }
      messages := messages + [Message(Assistant, fullResponse)];
      outcome := Answered;
    }

    /**
     * One run of the page: the sidebar's file handling, then either the
     * "Clear Chat" button (which reruns the page at once) or the turn.
     */
    method Run(uploaded: bool, includeFile: bool, read: Option<string>, clear: bool,
               input: Option<string>, respond: seq<Message> -> Stream) returns (outcome: TurnOutcome)
      modifies this
      ensures var fc := SyncedFile(old(fileContent), uploaded, includeFile, read);
        if clear then messages == [] && fileContent == NoContent && outcome == Cleared
        else
          && fileContent == fc
          && outcome == TurnResult(fc, input)
          && messages == TurnHistory(old(messages), fc, input, respond)
    {
      SyncFile(uploaded, includeFile, read);
      if clear {
        ClearChat();
        return Cleared;
      }
      outcome := Turn(input, respond);
    }
  }

  /** The file content after the sidebar's file handling. */
  function SyncedFile(fc: FileContent, uploaded: bool, includeFile: bool, read: Option<string>): FileContent
  {
    if !uploaded then NoContent
    else if !includeFile then fc
    else if read.Some? then Content(read.value)
    else NoContent
  }

  function TurnResult(fc: FileContent, input: Option<string>): TurnOutcome
  {
    if input.None? || input.value == "" then Idle
    else if fc.Unset? then Crashed
    else Answered
  }

  /** The history after a turn. */
  function TurnHistory(history: seq<Message>, fc: FileContent, input: Option<string>,
                       respond: seq<Message> -> Stream): seq<Message>
  {
    match TurnResult(fc, input)
    case Idle => history
    case Crashed => history + [Message(User, input.value)]
    case Answered =>
      var asked := history + [Message(User, input.value)];
      asked + [Message(Assistant, ReplyText(respond(ApiMessages(fc, asked))))]
  }

  /**
   * An answered turn adds exactly the user's message and then the
   * assistant's reply; the reply was asked for with the user's message
   * last; nothing earlier changes.
   */
  lemma AnsweredTurnAppendsPair(history: seq<Message>, fc: FileContent, input: Option<string>,
                                respond: seq<Message> -> Stream)
    requires TurnResult(fc, input) == Answered
    ensures var h := TurnHistory(history, fc, input, respond);
      && |h| == |history| + 2
      && h[..|history|] == history
      && h[|history|] == Message(User, input.value)
      && h[|history| + 1].role == Assistant
    ensures var api := ApiMessages(fc, history + [Message(User, input.value)]);
      api != [] && api[|api| - 1] == Message(User, input.value)
  {
    var h := TurnHistory(history, fc, input, respond);
    assert h[..|history|] == history;
  }

  /** A turn that calls the service answers with the gathered text, or with the apology on failure. */
  lemma AnsweredTurnReply(history: seq<Message>, fc: FileContent, input: Option<string>,
                          respond: seq<Message> -> Stream)
    requires TurnResult(fc, input) == Answered
    ensures var asked := history + [Message(User, input.value)];
      var stream := respond(ApiMessages(fc, asked));
      var reply := TurnHistory(history, fc, input, respond)[|history| + 1].content;
      && (stream.failure.None? ==> reply == StreamText(stream.chunks))
      && (stream.failure.Some? ==>
            StartsWith(reply, ApologyPrefix) && reply[|ApologyPrefix|..] == stream.failure.value)
  {
  }

  /** Sending nothing changes nothing; a crashed turn keeps only the user's message. */
  lemma QuietTurns(history: seq<Message>, fc: FileContent, input: Option<string>,
                   respond: seq<Message> -> Stream)
    ensures TurnResult(fc, input) == Idle <==> input.None? || input.value == ""
    ensures TurnResult(fc, input) == Idle ==> TurnHistory(history, fc, input, respond) == history
    ensures TurnResult(fc, input) == Crashed ==>
      fc.Unset? && TurnHistory(history, fc, input, respond) == history + [Message(User, input.value)]
  {
  }

  /**
   * Once the sidebar has run without a file, or with an included file,
   * the content is set and a turn can no longer crash.
   */
  lemma SyncedFileIsSet(fc: FileContent, uploaded: bool, includeFile: bool, read: Option<string>,
                        input: Option<string>)
    requires !uploaded || includeFile || !fc.Unset?
    ensures !SyncedFile(fc, uploaded, includeFile, read).Unset?
    ensures TurnResult(SyncedFile(fc, uploaded, includeFile, read), input) != Crashed
  {
  }

  /**
   * The page reads the file content without a guard: a first run with a
   * file whose content is not to be included would leave it unset, and
   * sending a message would raise. Streamlit rules that run out, because the
   * checkbox is created only once a file is present and a new checkbox is
   * checked; `SyncedFileIsSet` covers every first run that can happen.
   */
  lemma ExcludedFileOnFirstRunCrashes(read: Option<string>, text: string)
    requires text != ""
    ensures SyncedFile(Unset, true, false, read) == Unset
    ensures TurnResult(SyncedFile(Unset, true, false, read), Some(text)) == Crashed
  {
  }
}
