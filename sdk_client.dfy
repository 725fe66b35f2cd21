/** The vendor-SDK client: the SDK posts the request and hands back typed objects; the
    client only checks for choices and joins the streamed deltas. */
module SdkClient {
  import opened Wrappers
  import opened Text
  import opened Chat
  import opened Wire
  import opened Stream

  /** A configured client: the deployment it asks for and the service's base URL. */
  datatype DialClient = DialClient(deploymentName: string, baseUrl: string)

  /** The reply message of one choice of a non-streamed completion. */
  datatype ReplyChoice = ReplyChoice(content: string)

  /** A non-streamed completion; `None` stands for a missing `choices` list. */
  datatype Completion = Completion(choices: Option<seq<ReplyChoice>>)

  /** One choice of a streamed chunk: `finish_reason` and `delta.content`, either possibly `None`. */
  datatype ChunkChoice = ChunkChoice(finishReason: Option<string>, deltaContent: Option<string>)

  /** One streamed chunk. */
  datatype Chunk = Chunk(choices: Option<seq<ChunkChoice>>)

  /** Python truthiness of a list that may be `None`. */
  predicate NonEmpty<T>(xs: Option<seq<T>>)
  {
    xs.Some? && xs.value != []
  }

  /** Python truthiness of an optional string. */
  predicate Truthy(s: Option<string>)
  {
    s.Some? && s.value != ""
  }

  function RequestFor(client: DialClient, messages: seq<Message>, stream: bool): (r: Request)
    ensures r.url == client.baseUrl && r.model == client.deploymentName && r.stream == stream
    ensures ParseRequestMessages(r.messages) == Some(messages)
  {
    RequestMessagesRoundTrip(messages);
    Request(client.baseUrl, client.deploymentName, PrepareRequestMessages(messages), stream)
  }

  /** `get_completion`: fails when there are no choices; otherwise the first choice's content,
      always under the assistant role. `create` stands for the SDK call. */
  function GetCompletion(client: DialClient, messages: seq<Message>, create: Request -> Completion): (r: Result<Message, Error>)
    ensures var completion := create(RequestFor(client, messages, false));
      && (r.Ok? <==> NonEmpty(completion.choices))
      && (r.Err? ==> r.error == NoChoices)
      && (r.Ok? ==> r == Ok(Message(AI, completion.choices.value[0].content)))
  {
    var choices := create(RequestFor(client, messages, false)).choices;
    if !NonEmpty(choices) then Err(NoChoices)
    else Ok(Message(AI, choices.value[0].content))
  }

  /** What the `async for` loop does with one chunk: no choices raises, a truthy
      `finish_reason` stops, anything else appends `delta.content`, even `None` or `""`. */
  function ClassifyChunk(chunk: Chunk): Step<Option<string>, Error>
  {
    if !NonEmpty(chunk.choices) then Fail(NoChoicesInChunk)
    else if Truthy(chunk.choices.value[0].finishReason) then Stop
    else Emit(chunk.choices.value[0].deltaContent)
  }

  function Steps(chunks: seq<Chunk>): (s: seq<Step<Option<string>, Error>>)
    ensures |s| == |chunks|
  {
    seq(|chunks|, i requires 0 <= i < |chunks| => ClassifyChunk(chunks[i]))
  }

  /** `''.join(contents)` over pieces that may be `None`: a `None` piece raises `TypeError`. */
  function JoinPieces(pieces: seq<Option<string>>): (r: Result<string, Error>)
    ensures r.Ok? <==> forall i :: 0 <= i < |pieces| ==> pieces[i].Some?
    ensures r.Err? ==> r.error == JoinTypeError
    ensures r.Ok? ==> r.value == Join(seq(|pieces|, i requires 0 <= i < |pieces| && pieces[i].Some? => pieces[i].value))
  {
    if pieces == [] then Ok("")
    else if pieces[0].None? then Err(JoinTypeError)
    else match JoinPieces(pieces[1..])
      case Err(e) => Err(e)
      case Ok(rest) =>
        assert seq(|pieces| - 1, i requires 0 <= i < |pieces| - 1 && pieces[1..][i].Some? => pieces[1..][i].value)
            == seq(|pieces|, i requires 0 <= i < |pieces| && pieces[i].Some? => pieces[i].value)[1..];
        Ok(pieces[0].value + rest)
  }

  /** The message `stream_completion` returns for a stream of chunks. */
  function StreamResult(chunks: seq<Chunk>): Result<Message, Error>
  {
    match Collect(Steps(chunks))
    case Err(e) => Err(e)
    case Ok(pieces) =>
      match JoinPieces(pieces)
      case Err(e) => Err(e)
      case Ok(text) => Ok(Message(AI, text))
  }

  /** `stream_completion`: appends every chunk's `delta.content` until a chunk with a truthy
      `finish_reason`, then joins them under the assistant role. `createStream` stands for the
      SDK call and gives the chunks the `async for` loop receives. */
  method StreamCompletion(client: DialClient, messages: seq<Message>, createStream: Request -> seq<Chunk>)
    returns (r: Result<Message, Error>)
    ensures r == StreamResult(createStream(RequestFor(client, messages, true)))
  {
    var completion := createStream(RequestFor(client, messages, true));
    ghost var steps := Steps(completion);
    var contents: seq<Option<string>> := [];
    var i := 0;
    assert steps[i..] == steps;
    PrependNothing(Collect(steps));
    while i < |completion|
      invariant i <= |completion|
      invariant Collect(steps) == Prepend(contents, Collect(steps[i..]))
    {
      CollectStep(steps, i);
      var chunk := completion[i];
      var choices := chunk.choices;
      if !NonEmpty(choices) {
        return Err(NoChoicesInChunk);
      }
      var choice := choices.value[0];
      if Truthy(choice.finishReason) {
        break;
      }
      var content := choice.deltaContent;
      PrependAssoc(contents, [content], Collect(steps[i + 1..]));
      contents := contents + [content];
      i := i + 1;
    }
    if i == |completion| {
      assert steps[i..] == [];
    }
    assert contents + [] == contents;
    var text := JoinPieces(contents);
    if text.Err? {
      return Err(text.error);
    }
    return Ok(Message(AI, text.value));
  }

  /** How many chunks the loop appends before it leaves. */
  function ContentChunks(chunks: seq<Chunk>): (k: nat)
    ensures k <= |chunks|
  {
    StopIndex(Steps(chunks))
  }

  /** The streamed message: always the assistant role; it succeeds exactly when the loop leaves
      on a chunk with a truthy `finish_reason` (or at the end) and every chunk before it carries
      a `delta.content`, and its content is those contents concatenated in order; a chunk
      without choices before the stop fails the call. */
  lemma {:induction false} StreamOutcome(chunks: seq<Chunk>)
    ensures var k := ContentChunks(chunks);
      && (forall j :: 0 <= j < k ==> NonEmpty(chunks[j].choices) && !Truthy(chunks[j].choices.value[0].finishReason))
      && (k < |chunks| ==> !NonEmpty(chunks[k].choices) || Truthy(chunks[k].choices.value[0].finishReason))
    ensures var k := ContentChunks(chunks);
      StreamResult(chunks).Ok? <==>
        && (k == |chunks| || NonEmpty(chunks[k].choices))
        && (forall j :: 0 <= j < k ==> chunks[j].choices.value[0].deltaContent.Some?)
    ensures var k := ContentChunks(chunks);
      StreamResult(chunks).Ok? ==>
        && StreamResult(chunks).value.role == AI
        && StreamResult(chunks).value.content
           == Join(seq(k, j requires 0 <= j < k => chunks[j].choices.value[0].deltaContent.value))
    ensures var k := ContentChunks(chunks);
      k < |chunks| && !NonEmpty(chunks[k].choices) ==> StreamResult(chunks) == Err(NoChoicesInChunk)
  {
    var steps := Steps(chunks);
    var k := ContentChunks(chunks);
    CollectUpToStop(steps);
    forall j | 0 <= j < |chunks|
      ensures steps[j].Emit? <==> NonEmpty(chunks[j].choices) && !Truthy(chunks[j].choices.value[0].finishReason)
      ensures steps[j].Emit? ==> steps[j].piece == chunks[j].choices.value[0].deltaContent
      ensures steps[j].Fail? <==> !NonEmpty(chunks[j].choices)
    {
      assert steps[j] == ClassifyChunk(chunks[j]);
    }
    if Collect(steps).Ok? {
      var pieces := Collect(steps).value;
      assert forall j :: 0 <= j < k ==> pieces[j] == chunks[j].choices.value[0].deltaContent;
      if JoinPieces(pieces).Ok? {
        assert seq(|pieces|, i requires 0 <= i < |pieces| && pieces[i].Some? => pieces[i].value)
            == seq(k, j requires 0 <= j < k => chunks[j].choices.value[0].deltaContent.value);
      }
    }
  }

  /** Chunks after the stopping chunk are never received by the loop's body. */
  lemma StreamIgnoresLaterChunks(chunks: seq<Chunk>, more: seq<Chunk>)
    requires ContentChunks(chunks) < |chunks|
    ensures StreamResult(chunks + more) == StreamResult(chunks)
  {
    assert Steps(chunks + more) == Steps(chunks) + Steps(more);
    CollectIgnoresRest(Steps(chunks), Steps(more));
  }

  /** Unlike the custom client, an empty `finish_reason` is falsy here: the chunk is not a stop,
      and its `delta.content` is appended. */
  lemma EmptyFinishReasonDoesNotStop(content: Option<string>)
    ensures ClassifyChunk(Chunk(Some([ChunkChoice(Some(""), content)]))) == Emit(content)
  {
  }
}
