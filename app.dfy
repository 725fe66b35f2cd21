/** The command-line driver: the start-up answers, the priming call with the system prompt,
    and the chat loop that grows the conversation one exchange at a time. */
module App {
  import opened Wrappers
  import opened Text
  import opened Chat
  import opened Wire
  import CustomClient
  import SdkClient

  const CommandExit := "exit"
  const Model := "gpt-4.1-nano-2025-04-14"

  /** The two configuration constants the driver and the clients read. */
  datatype Config = Config(dialEndpoint: string, defaultSystemPrompt: string)

  /** The completion service as the clients see it, once transport and decoding are
      abstracted: what each kind of call returns for a request, and `json.loads`. */
  datatype Backend = Backend(
    post: Request -> ChunkObj,
    postStream: Request -> seq<string>,
    decode: string -> Option<ChunkObj>,
    create: Request -> SdkClient.Completion,
    createStream: Request -> seq<SdkClient.Chunk>)

  /** The two interchangeable implementations of the client capability. */
  datatype Client = Custom(custom: CustomClient.DialClient) | Sdk(sdk: SdkClient.DialClient)

  // ---------------------------------------------------------------- start-up answers

  /** `user_client_input or user_client_input in "Yy"`. */
  predicate UseCustomClient(answer: string)
  {
    answer != "" || Contains("Yy", answer)
  }

  /** As written, every answer selects the custom client: a non-empty answer is truthy, and
      the empty answer is a substring of every string. */
  lemma CustomClientAlwaysChosen(answer: string)
    ensures UseCustomClient(answer)
  {
    if answer == "" {
      assert StartsWith("Yy", answer);
    }
  }

  /** `not user_stream_input or user_stream_input not in "Nn"`. */
  predicate UseStreamResponse(answer: string)
  {
    answer == "" || !Contains("Nn", answer)
  }

  /** Streaming is off exactly for the answers that are non-empty substrings of "Nn"; any
      other answer, "no" included, leaves it on. */
  lemma StreamingOffAnswers(answer: string)
    ensures !UseStreamResponse(answer) <==> answer in {"N", "n", "Nn"}
  {
    assert Contains("Nn", answer) <==> StartsWith("Nn", answer) || StartsWith("n", answer) || StartsWith("", answer);
    if |answer| == 1 {
      assert StartsWith("Nn", answer) <==> answer == "N";
      assert StartsWith("n", answer) <==> answer == "n";
    } else if |answer| == 2 {
      assert StartsWith("Nn", answer) <==> answer == "Nn";
    }
  }

  /** The client the driver builds for the answer to "Use custom client?". */
  function NewClient(answer: string, config: Config): (c: Client)
    ensures c.Custom? <==> UseCustomClient(answer)
    ensures c.Custom? ==>
      (c.custom.deploymentName == Model
       && CustomClient.DeploymentOf(config.dialEndpoint, c.custom.endpoint) == Some(Model))
    ensures c.Sdk? ==> c.sdk == SdkClient.DialClient(Model, config.dialEndpoint)
  {
    if UseCustomClient(answer)
    then Custom(CustomClient.NewDialClient(config.dialEndpoint, Model))
    else Sdk(SdkClient.DialClient(Model, config.dialEndpoint))
  }

  /** `user_system_prompt or DEFAULT_SYSTEM_PROMPT`: only the empty answer falls back to the
      default; any other answer, whitespace included, is used verbatim. */
  function SystemPrompt(answer: string, default: string): (prompt: string)
    ensures answer != "" ==> prompt == answer
    ensures answer == "" ==> prompt == default
  {
    if answer != "" then answer else default
  }

  // ---------------------------------------------------------------- one call to the client

  /** The reply a client gives for a conversation, streamed or not. */
  function Completion(client: Client, stream: bool, backend: Backend, messages: seq<Message>): Result<Message, Error>
  {
    match client
    case Custom(c) =>
      if stream then CustomClient.StreamResult(backend.postStream(CustomClient.RequestFor(c, messages, true)), backend.decode)
      else CustomClient.GetCompletion(c, messages, backend.post)
    case Sdk(c) =>
      if stream then SdkClient.StreamResult(backend.createStream(SdkClient.RequestFor(c, messages, true)))
      else SdkClient.GetCompletion(c, messages, backend.create)
  }

  method Complete(client: Client, stream: bool, backend: Backend, messages: seq<Message>)
    returns (r: Result<Message, Error>)
    ensures r == Completion(client, stream, backend, messages)
  {
    match client {
      case Custom(c) =>
        if stream {
          r := CustomClient.StreamCompletion(c, messages, backend.postStream, backend.decode);
        } else {
          r := CustomClient.GetCompletion(c, messages, backend.post);
        }
      case Sdk(c) =>
        if stream {
          r := SdkClient.StreamCompletion(c, messages, backend.createStream);
        } else {
          r := SdkClient.GetCompletion(c, messages, backend.create);
        }
    }
  }

  // ---------------------------------------------------------------- the chat loop

  /** The client's reply to a conversation, as the loop sees it. */
  type Replier = seq<Message> -> Result<Message, Error>

  /** How the session ends: the exit command, input running out (`input()` raises), or an
      error from the client propagating out of the loop. */
  datatype Status = Exited | EndOfInput | Failed(error: Error)

  datatype Outcome = Outcome(transcript: seq<Message>, status: Status)

  /** The chat loop from a given conversation over the remaining input lines. */
  function Session(conversation: seq<Message>, lines: seq<string>, reply: Replier): Outcome
    decreases |lines|
  {
    if lines == [] then Outcome(conversation, EndOfInput)
    else if lines[0] == CommandExit then Outcome(conversation, Exited)
    else
      var asked := conversation + [Message(User, lines[0])];
      match reply(asked)
      case Err(e) => Outcome(asked, Failed(e))
      case Ok(answer) => Session(asked + [answer], lines[1..], reply)
  }

  /** One turn of the loop: the user message of the first line is appended and sent; an error
      ends the session there, a reply is appended and the loop goes on with the next line. */
  lemma SessionTurn(conversation: seq<Message>, lines: seq<string>, reply: Replier)
    requires lines != [] && lines[0] != CommandExit
    ensures var asked := conversation + [Message(User, lines[0])];
      Session(conversation, lines, reply)
        == if reply(asked).Err? then Outcome(asked, Failed(reply(asked).error))
           else Session(asked + [reply(asked).value], lines[1..], reply)
  {
  }

  /** The position of the first line that is exactly the exit command, or the number of lines. */
  function ExitIndex(lines: seq<string>): (k: nat)
    ensures k <= |lines|
    ensures forall j :: 0 <= j < k ==> lines[j] != CommandExit
    ensures k < |lines| ==> lines[k] == CommandExit
  {
    if lines == [] || lines[0] == CommandExit then 0 else 1 + ExitIndex(lines[1..])
  }

  /** `transcript` is `conversation` followed, for each line in order, by the user message of
      that line and the client's reply to everything up to and including that user message. */
  predicate Transcript(conversation: seq<Message>, lines: seq<string>, transcript: seq<Message>, reply: Replier)
  {
    && |transcript| == |conversation| + 2 * |lines|
    && transcript[..|conversation|] == conversation
    && forall j :: 0 <= j < |lines| ==>
         && transcript[|conversation| + 2 * j] == Message(User, lines[j])
         && reply(transcript[..|conversation| + 2 * j + 1]) == Ok(transcript[|conversation| + 2 * j + 1])
  }

  lemma TranscriptCons(conversation: seq<Message>, line: string, answer: Message, lines: seq<string>,
                       transcript: seq<Message>, reply: Replier)
    requires reply(conversation + [Message(User, line)]) == Ok(answer)
    requires Transcript(conversation + [Message(User, line), answer], lines, transcript, reply)
    ensures Transcript(conversation, [line] + lines, transcript, reply)
  {
    var n := |conversation|;
    var next := conversation + [Message(User, line), answer];
    assert transcript[..n + 2] == next;
    assert transcript[..n] == next[..n] == conversation;
    assert transcript[..n + 1] == next[..n + 1] == conversation + [Message(User, line)];
    forall j | 0 <= j < |[line] + lines|
      ensures transcript[n + 2 * j] == Message(User, ([line] + lines)[j])
      ensures reply(transcript[..n + 2 * j + 1]) == Ok(transcript[n + 2 * j + 1])
    {
      if j == 0 {
        assert transcript[n] == next[n];
        assert transcript[n + 1] == next[n + 1];
      } else {
        assert n + 2 * j == |next| + 2 * (j - 1);
      }
    }
  }

  /** The loop only ever appends: the conversation it starts from is a prefix of the one it
      ends with. */
  lemma {:induction false} SessionAppendOnly(conversation: seq<Message>, lines: seq<string>, reply: Replier)
    ensures conversation <= Session(conversation, lines, reply).transcript
    decreases |lines|
  {
    if lines != [] && lines[0] != CommandExit {
      var asked := conversation + [Message(User, lines[0])];
      if reply(asked).Ok? {
        SessionAppendOnly(asked + [reply(asked).value], lines[1..], reply);
      }
    }
  }

  /** A session that ends without error has run one exchange per line before the first exact
      "exit" (so 2k entries after k turns, the typed lines at the even positions, each reply
      computed from the whole conversation including the line just typed), and it ends by
      "exit" exactly when that command occurs. */
  lemma {:induction false} SessionCompleted(conversation: seq<Message>, lines: seq<string>, reply: Replier)
    requires !Session(conversation, lines, reply).status.Failed?
    ensures Transcript(conversation, lines[..ExitIndex(lines)], Session(conversation, lines, reply).transcript, reply)
    ensures Session(conversation, lines, reply).status == Exited <==> ExitIndex(lines) < |lines|
    decreases |lines|
  {
    var o := Session(conversation, lines, reply);
    if lines == [] || lines[0] == CommandExit {
      assert lines[..0] == [];
      assert o.transcript[..|conversation|] == conversation;
    } else {
      var asked := conversation + [Message(User, lines[0])];
      var answer := reply(asked).value;
      SessionCompleted(asked + [answer], lines[1..], reply);
      var k := ExitIndex(lines);
      assert lines[1..][..k - 1] == lines[1..k];
      assert [lines[0]] + lines[1..k] == lines[..k];
      TranscriptCons(conversation, lines[0], answer, lines[1..k], o.transcript, reply);
    }
  }

  /** The number of exchanges the loop completes before it leaves. */
  function Turns(conversation: seq<Message>, lines: seq<string>, reply: Replier): nat
    decreases |lines|
  {
    if lines == [] || lines[0] == CommandExit then 0
    else
      var asked := conversation + [Message(User, lines[0])];
      match reply(asked)
      case Err(_) => 0
      case Ok(answer) => 1 + Turns(asked + [answer], lines[1..], reply)
  }

  /** A session that fails has completed the exchanges of the lines before some line n (all
      before the first "exit") exactly as a session given only those lines would, then appended
      the user message of line n, and the client raised on that conversation; the error is the
      client's. */
  lemma {:induction false} SessionFailed(conversation: seq<Message>, lines: seq<string>, reply: Replier)
    requires Session(conversation, lines, reply).status.Failed?
    ensures var t := Session(conversation, lines, reply).transcript;
      var n := Turns(conversation, lines, reply);
      && n < ExitIndex(lines)
      && t != []
      && Session(conversation, lines[..n], reply) == Outcome(t[..|t| - 1], EndOfInput)
      && t[|t| - 1] == Message(User, lines[n])
      && reply(t) == Err(Session(conversation, lines, reply).status.error)
    decreases |lines|
  {
    var o := Session(conversation, lines, reply);
    var t := o.transcript;
    var asked := conversation + [Message(User, lines[0])];
    if reply(asked).Err? {
      assert t == asked;
      assert Turns(conversation, lines, reply) == 0;
      assert t[..|t| - 1] == conversation;
      assert lines[..0] == [];
    } else {
      var answer := reply(asked).value;
      var next := asked + [answer];
      assert o == Session(next, lines[1..], reply);
      SessionFailed(next, lines[1..], reply);
      var m := Turns(next, lines[1..], reply);
      assert Turns(conversation, lines, reply) == m + 1;
      assert ExitIndex(lines) == ExitIndex(lines[1..]) + 1;
      assert lines[..m + 1][1..] == lines[1..][..m];
      assert lines[1..][m] == lines[m + 1];
    }
  }

  /** The transcript of a failed session, spelled out: before line n, one exchange per line as
      in a completed session; then the user message of line n, on which the client raised. */
  lemma SessionFailedTranscript(conversation: seq<Message>, lines: seq<string>, reply: Replier)
    requires Session(conversation, lines, reply).status.Failed?
    ensures var t := Session(conversation, lines, reply).transcript;
      var n := Turns(conversation, lines, reply);
      && n < ExitIndex(lines)
      && |t| == |conversation| + 2 * n + 1
      && Transcript(conversation, lines[..n], t[..|t| - 1], reply)
      && t[|t| - 1] == Message(User, lines[n])
      && reply(t) == Err(Session(conversation, lines, reply).status.error)
  {
    SessionFailed(conversation, lines, reply);
    var n := Turns(conversation, lines, reply);
    ExitIndexOfPrefix(lines, n);
    SessionCompleted(conversation, lines[..n], reply);
    assert lines[..n][..n] == lines[..n];
  }

  /** Cutting the lines before the first "exit" leaves no "exit" in them. */
  lemma ExitIndexOfPrefix(lines: seq<string>, n: nat)
    requires n <= ExitIndex(lines)
    ensures ExitIndex(lines[..n]) == n
  {
  }

  /** Lines after the first "exit" are never read. */
  lemma {:induction false} SessionIgnoresAfterExit(conversation: seq<Message>, lines: seq<string>, more: seq<string>, reply: Replier)
    requires ExitIndex(lines) < |lines|
    ensures Session(conversation, lines + more, reply) == Session(conversation, lines, reply)
    decreases |lines|
  {
    if lines[0] != CommandExit {
      assert (lines + more)[1..] == lines[1..] + more;
      var asked := conversation + [Message(User, lines[0])];
      if reply(asked).Ok? {
        SessionIgnoresAfterExit(asked + [reply(asked).value], lines[1..], more, reply);
      }
    }
  }

  /** The conversation the driver keeps: an ordered list of messages it appends to. */
  class Conversation {
    var messages: seq<Message>

    constructor ()
      ensures messages == []
    {
      messages := [];
    }
  }

  /** `start`: builds the client, sends the system prompt once on its own (its reply is dropped
      and never stored), then runs the chat loop over the input lines from an empty conversation. */
  method Start(stream: bool, clientAnswer: string, promptAnswer: string, lines: seq<string>,
               config: Config, backend: Backend)
    returns (outcome: Outcome)
    ensures var client := NewClient(clientAnswer, config);
      var priming := Completion(client, false, backend,
                                [Message(System, SystemPrompt(promptAnswer, config.defaultSystemPrompt))]);
      outcome == if priming.Err? then Outcome([], Failed(priming.error))
                 else Session([], lines, m => Completion(client, stream, backend, m))
  {
    var client := NewClient(clientAnswer, config);
    var conversation := new Conversation();
    var systemPrompt := SystemPrompt(promptAnswer, config.defaultSystemPrompt);
    var priming := Complete(client, false, backend, [Message(System, systemPrompt)]);
    if priming.Err? {
      return Outcome(conversation.messages, Failed(priming.error));
    }
    ghost var reply: Replier := m => Completion(client, stream, backend, m);
    var i := 0;
    assert lines[i..] == lines;
    while true
      invariant i <= |lines|
      invariant Session([], lines, reply) == Session(conversation.messages, lines[i..], reply)
      decreases |lines| - i
    {
      if i == |lines| {
        return Outcome(conversation.messages, EndOfInput);
      }
      var userInput := lines[i];
      if userInput == CommandExit {
        break;
      }
      SessionTurn(conversation.messages, lines[i..], reply);
      conversation.messages := conversation.messages + [Message(User, userInput)];
      var aiMessage := Complete(client, stream, backend, conversation.messages);
      assert reply(conversation.messages) == aiMessage;
      if aiMessage.Err? {
        return Outcome(conversation.messages, Failed(aiMessage.error));
      }
      conversation.messages := conversation.messages + [aiMessage.value];
      assert lines[i..][1..] == lines[i + 1..];
      i := i + 1;
    }
    return Outcome(conversation.messages, Exited);
  }
}
