/** The hand-rolled client: it posts to the completions endpoint itself, validates the reply
    field by field, and consumes the event stream frame by frame. */
module CustomClient {
  import opened Wrappers
  import opened Text
  import opened Chat
  import opened Wire
  import opened Stream

  const DeploymentsPath := "/openai/deployments/"
  const CompletionsPath := "/chat/completions"

  /** The completions URL of a deployment under the service's base URL. */
  function Endpoint(dialEndpoint: string, deploymentName: string): string
  {
    dialEndpoint + DeploymentsPath + deploymentName + CompletionsPath
  }

  /** The deployment a completions URL under `dialEndpoint` names, if it has that shape. */
  function DeploymentOf(dialEndpoint: string, url: string): Option<string>
  {
    var head := dialEndpoint + DeploymentsPath;
    if |head| + |CompletionsPath| <= |url| && url[..|head|] == head
       && url[|url| - |CompletionsPath|..] == CompletionsPath
    then Some(url[|head|..|url| - |CompletionsPath|])
    else None
  }

  /** The endpoint names exactly the deployment it was built from. */
  lemma EndpointNamesDeployment(dialEndpoint: string, deploymentName: string)
    ensures DeploymentOf(dialEndpoint, Endpoint(dialEndpoint, deploymentName)) == Some(deploymentName)
  {
    var head := dialEndpoint + DeploymentsPath;
    var url := Endpoint(dialEndpoint, deploymentName);
    assert url == head + deploymentName + CompletionsPath;
    assert url[..|head|] == head;
    assert url[|url| - |CompletionsPath|..] == CompletionsPath;
    assert url[|head|..|url| - |CompletionsPath|] == deploymentName;
  }

  /** A configured client: the `model` it asks for and the URL it posts to. */
  datatype DialClient = DialClient(deploymentName: string, endpoint: string)

  /** `DialClient(deployment_name)`: the endpoint is the base URL followed by the deployment's path. */
  function NewDialClient(dialEndpoint: string, deploymentName: string): (c: DialClient)
    ensures c.deploymentName == deploymentName
    ensures StartsWith(c.endpoint, dialEndpoint)
    ensures DeploymentOf(dialEndpoint, c.endpoint) == Some(deploymentName)
  {
    EndpointNamesDeployment(dialEndpoint, deploymentName);
    DialClient(deploymentName, Endpoint(dialEndpoint, deploymentName))
  }

  /** The request body `{model, messages[, stream]}` posted to the client's endpoint. */
  function RequestFor(client: DialClient, messages: seq<Message>, stream: bool): (r: Request)
    ensures r.url == client.endpoint && r.model == client.deploymentName && r.stream == stream
    ensures ParseRequestMessages(r.messages) == Some(messages)
  {
    RequestMessagesRoundTrip(messages);
    Request(client.endpoint, client.deploymentName, PrepareRequestMessages(messages), stream)
  }

  // ---------------------------------------------------------------- non-streaming reply

  /** The `message` member of the first choice; only meaningful when there are choices. */
  function FirstMessage(body: ChunkObj): Field<MessageObj>
  {
    if HasChoices(body) then body.choices.value[0].message else Absent
  }

  /** The checks of `get_completion` on a decoded reply body, in their order: choices, then
      message, then role membership, then non-empty content. */
  function ValidateReply(body: ChunkObj): (r: Result<Message, Error>)
    ensures r.Ok? <==>
      && HasChoices(body)
      && TruthyObj(FirstMessage(body))
      && RoleOf(Get(FirstMessage(body).value.role)).Some?
      && TruthyText(FirstMessage(body).value.content)
    ensures r.Ok? ==>
      && FirstMessage(body).value.role == Value(RoleValue(r.value.role))
      && FirstMessage(body).value.content == Value(r.value.content)
      && r.value.content != ""
    ensures r.Err? ==>
      r.error == (if !HasChoices(body) then NoChoices
                  else if !TruthyObj(FirstMessage(body)) then NoMessage
                  else if RoleOf(Get(FirstMessage(body).value.role)).None? then WrongRole(Get(FirstMessage(body).value.role))
                  else NoContent)
  {
    if !HasChoices(body) then Err(NoChoices)
    else
      var message := body.choices.value[0].message;
      if !TruthyObj(message) then Err(NoMessage)
      else
        var rawRole := Get(message.value.role);
        match RoleOf(rawRole)
        case None => Err(WrongRole(rawRole))
        case Some(role) =>
          if !TruthyText(message.value.content) then Err(NoContent)
          else Ok(Message(role, message.value.content.value))
  }

  /** `get_completion`: posts the serialised conversation without streaming and validates the
      decoded reply; `post` stands for the HTTP call and `response.json()`. */
  function GetCompletion(client: DialClient, messages: seq<Message>, post: Request -> ChunkObj): (r: Result<Message, Error>)
    ensures var request := RequestFor(client, messages, false);
      r == ValidateReply(post(request)) && !request.stream
      && ParseRequestMessages(request.messages) == Some(messages)
  {
    ValidateReply(post(RequestFor(client, messages, false)))
  }

  // ---------------------------------------------------------------- frame text

  const DataPrefix := "data: "
  const DoneSentinel := "[DONE]"

  /** `json.loads` on the text of a frame. `decode` stands for the decoder on arbitrary text;
      the empty text and the `[DONE]` sentinel are not JSON, so on them it always raises. */
  function LoadJson(text: string, decode: string -> Option<ChunkObj>): (r: Option<ChunkObj>)
    ensures text == "" || text == DoneSentinel ==> r.None?
  {
    if text == "" || text == DoneSentinel then None else decode(text)
  }

  /** `_parse_stream_chunk`: strip surrounding whitespace, then drop one leading `data: `. */
  function ParseStreamChunk(raw: string): (r: string)
    ensures StartsWith(Strip(raw), DataPrefix) <==> DataPrefix + r == Strip(raw)
    ensures !StartsWith(Strip(raw), DataPrefix) ==> r == Strip(raw)
  {
    RemovePrefix(Strip(raw), DataPrefix)
  }

  /** A frame as the service sends it, `data: <payload>` and the blank-line delimiter, reads
      back as its payload when the payload does not end in whitespace, even if the payload
      itself begins with `data: `: only one prefix is removed. */
  lemma ParseFramedPayload(payload: string)
    requires payload != [] && !IsSpace(payload[|payload| - 1])
    ensures ParseStreamChunk(DataPrefix + payload + "\n\n") == payload
  {
    var raw := DataPrefix + payload + "\n\n";
    var hi := |DataPrefix| + |payload|;
    assert raw[..0] == [];
    assert raw[hi..] == "\n\n";
    assert raw[0] == 'd';
    assert raw[hi - 1] == payload[|payload| - 1];
    StripUnique(raw, 0, hi);
    assert raw[0..hi] == DataPrefix + payload;
    assert (DataPrefix + payload)[..|DataPrefix|] == DataPrefix;
    assert (DataPrefix + payload)[|DataPrefix|..] == payload;
  }

  /** The end-of-stream frame reads as the sentinel. */
  lemma ParseDoneFrame()
    ensures ParseStreamChunk("data: [DONE]\n\n") == DoneSentinel
  {
    ParseFramedPayload(DoneSentinel);
    assert DataPrefix + DoneSentinel + "\n\n" == "data: [DONE]\n\n";
  }

  /** A frame with an empty payload loses the space of its prefix to `strip` and so keeps
      the rest of the prefix. */
  lemma ParseEmptyPayload()
    ensures ParseStreamChunk("data: \n\n") == "data:"
  {
    var raw := "data: \n\n";
    assert raw[..0] == [] && raw[5..] == " \n\n";
    StripUnique(raw, 0, 5);
    assert raw[0..5] == "data:";
  }

  // ---------------------------------------------------------------- stream frames

  /** What the loop of `stream_completion` does with one read after the first: an empty read
      ends the loop, so do `[DONE]` and a first choice whose `finish_reason` is not null;
      a frame that is not JSON, has no choices, a falsy `delta` or a falsy `content` raises;
      anything else appends its content. */
  function ClassifyFrame(raw: string, decode: string -> Option<ChunkObj>): Step<string, Error>
  {
    if raw == "" then Stop
    else
      var text := ParseStreamChunk(raw);
      if text == DoneSentinel then Stop
      else match LoadJson(text, decode)
        case None => Fail(MalformedJson)
        case Some(chunk) =>
          if !HasChoices(chunk) then Fail(NoChoices)
          else
            var choice := chunk.choices.value[0];
            if choice.finishReason.Value? then Stop
            else if !TruthyObj(choice.delta) then Fail(NoDelta)
            else if !TruthyText(choice.delta.value.content) then Fail(NoContent)
            else Emit(choice.delta.value.content.value)
  }

  function Steps(frames: seq<string>, decode: string -> Option<ChunkObj>): (s: seq<Step<string, Error>>)
    ensures |s| == |frames|
  {
    seq(|frames|, i requires 0 <= i < |frames| => ClassifyFrame(frames[i], decode))
  }

  /** The first read of the stream; a read past the end gives nothing. */
  function FirstRead(frames: seq<string>): string
  {
    if frames == [] then "" else frames[0]
  }

  /** The frames after the first. */
  function LaterReads(frames: seq<string>): seq<string>
  {
    if frames == [] then [] else frames[1..]
  }

  /** The role established by the first frame: its first choice's `delta.role`, which must
      name a role; a `null` delta raises on `.get`. */
  function FirstRole(raw: string, decode: string -> Option<ChunkObj>): (r: Result<Role, Error>)
    // a role comes only from the first choice's `delta.role`, holding that role's wire value
    ensures var c := LoadJson(ParseStreamChunk(raw), decode);
      r.Ok? ==> c.Some? && HasChoices(c.value) && c.value.choices.value[0].delta.Value?
                && c.value.choices.value[0].delta.value.role == Value(RoleValue(r.value))
    // and every role's wire value there is accepted
    ensures var c := LoadJson(ParseStreamChunk(raw), decode);
      forall role: Role ::
        (c.Some? && HasChoices(c.value) && c.value.choices.value[0].delta.Value?
         && c.value.choices.value[0].delta.value.role == Value(RoleValue(role)))
        ==> r == Ok(role)
    // otherwise the error of the first check that fails, in the order of lines 65-69
    ensures var c := LoadJson(ParseStreamChunk(raw), decode);
      r.Err? ==> r.error == (if c.None? then MalformedJson
                             else if !HasChoices(c.value) then NoChoices
                             else if c.value.choices.value[0].delta.Null? then NullDelta
                             else WrongRole(if c.value.choices.value[0].delta.Absent? then None
                                            else Get(c.value.choices.value[0].delta.value.role)))
  {
    match LoadJson(ParseStreamChunk(raw), decode)
    case None => Err(MalformedJson)
    case Some(chunk) =>
      if !HasChoices(chunk) then Err(NoChoices)
      else match chunk.choices.value[0].delta
        case Null => Err(NullDelta)
        case Absent => Err(WrongRole(None))
        case Value(delta) =>
          match RoleOf(Get(delta.role))
          case Some(role) => Ok(role)
          case None => Err(WrongRole(Get(delta.role)))
  }

  /** The message `stream_completion` returns for the successive frames of the stream. */
  function StreamResult(frames: seq<string>, decode: string -> Option<ChunkObj>): Result<Message, Error>
  {
    match FirstRole(FirstRead(frames), decode)
    case Err(e) => Err(e)
    case Ok(role) =>
      match Collect(Steps(LaterReads(frames), decode))
      case Err(e) => Err(e)
      case Ok(pieces) => Ok(Message(role, Join(pieces)))
  }

  /** `stream_completion`: posts the serialised conversation asking for a stream, takes the role
      from the first frame, then appends the content of each later frame until a stopping
      frame. `postStream` stands for the HTTP call and gives the successive `readuntil` results;
      `decode` stands for `json.loads`. */
  method StreamCompletion(client: DialClient, messages: seq<Message>,
                          postStream: Request -> seq<string>, decode: string -> Option<ChunkObj>)
    returns (r: Result<Message, Error>)
    ensures r == StreamResult(postStream(RequestFor(client, messages, true)), decode)
  {
    var frames := postStream(RequestFor(client, messages, true));
    var respChunk := ParseStreamChunk(if frames == [] then "" else frames[0]);
    var rawChunk := LoadJson(respChunk, decode);
    if rawChunk.None? {
      return Err(MalformedJson);
    }
    var rawChoices := rawChunk.value.choices;
    if !(rawChoices.Value? && rawChoices.value != []) {
      return Err(NoChoices);
    }
    var rawRole: Option<string>;
    match rawChoices.value[0].delta {
      case Null => return Err(NullDelta);
      case Absent => rawRole := None;
      case Value(delta) => rawRole := Get(delta.role);
    }
    if RoleOf(rawRole).None? {
      return Err(WrongRole(rawRole));
    }
    var role := RoleOf(rawRole).value;

    var later := if frames == [] then [] else frames[1..];
    var contents := ReadContents(later, decode);
    if contents.Err? {
      return Err(contents.error);
    }
    return Ok(Message(role, Join(contents.value)));
  }

  /** The `while` loop of `stream_completion`: reads frames after the first until one stops
      it, appending the content of each; raises on the first malformed frame. */
  method ReadContents(later: seq<string>, decode: string -> Option<ChunkObj>)
    returns (r: Result<seq<string>, Error>)
    ensures r == Collect(Steps(later, decode))
  {
    ghost var steps := Steps(later, decode);
    var contents: seq<string> := [];
    var i := 0;
    assert steps[i..] == steps;
    PrependNothing(Collect(steps));
    while i < |later| && later[i] != ""
      invariant i <= |later|
      invariant Collect(steps) == Prepend(contents, Collect(steps[i..]))
    {
      CollectStep(steps, i);
      var step := ReadFrame(later[i], decode);
      match step {
        case Stop => break;
        case Fail(e) => return Err(e);
        case Emit(content) =>
          PrependAssoc(contents, [content], Collect(steps[i + 1..]));
          contents := contents + [content];
      }
      i := i + 1;
    }
    if i < |later| {
      CollectStep(steps, i);
    } else {
      assert steps[i..] == [];
    }
    assert contents + [] == contents;
    return Ok(contents);
  }

  /** The body of that loop on one non-empty read: `[DONE]` and a non-null `finish_reason`
      break out, the checks of lines 76-86 raise, and otherwise the content is appended. */
  method ReadFrame(raw: string, decode: string -> Option<ChunkObj>) returns (step: Step<string, Error>)
    requires raw != ""
    ensures step == ClassifyFrame(raw, decode)
  {
    var respChunk := ParseStreamChunk(raw);
    if respChunk == DoneSentinel {
      return Stop;
    }
    var rawChunk := LoadJson(respChunk, decode);
    if rawChunk.None? {
      return Fail(MalformedJson);
    }
    var rawChoices := rawChunk.value.choices;
    if !(rawChoices.Value? && rawChoices.value != []) {
      return Fail(NoChoices);
    }
    var rawChoice := rawChoices.value[0];
    if rawChoice.finishReason.Value? {
      return Stop;
    }
    if !TruthyObj(rawChoice.delta) {
      return Fail(NoDelta);
    }
    var rawContent := rawChoice.delta.value.content;
    if !TruthyText(rawContent) {
      return Fail(NoContent);
    }
    return Emit(rawContent.value);
  }

  // ---------------------------------------------------------------- what the stream yields

  /** A frame that ends the loop cleanly: an empty read (the stream is exhausted), the `[DONE]`
      sentinel, or a chunk whose first choice has a non-null `finish_reason` (`""` included). */
  predicate IsStopFrame(raw: string, decode: string -> Option<ChunkObj>)
  {
    || raw == ""
    || ParseStreamChunk(raw) == DoneSentinel
    || (LoadJson(ParseStreamChunk(raw), decode).Some?
        && HasChoices(LoadJson(ParseStreamChunk(raw), decode).value)
        && LoadJson(ParseStreamChunk(raw), decode).value.choices.value[0].finishReason.Value?)
  }

  /** The `delta.content` text of a frame's first choice; empty when there is none. */
  function DeltaContent(raw: string, decode: string -> Option<ChunkObj>): string
  {
    match LoadJson(ParseStreamChunk(raw), decode)
    case Some(ChunkObj(Value(choices))) =>
      if choices != [] && choices[0].delta.Value? && choices[0].delta.value.content.Value?
      then choices[0].delta.value.content.value
      else ""
    case _ => ""
  }

  /** A frame whose content the loop appends: not a stopping frame, and carrying a non-empty
      delta text. */
  predicate IsContentFrame(raw: string, decode: string -> Option<ChunkObj>)
  {
    !IsStopFrame(raw, decode) && DeltaContent(raw, decode) != ""
  }

  /** Every frame is exactly one of: stopping, content, or malformed. */
  lemma FrameKinds(raw: string, decode: string -> Option<ChunkObj>)
    ensures ClassifyFrame(raw, decode).Stop? <==> IsStopFrame(raw, decode)
    ensures ClassifyFrame(raw, decode).Emit? <==> IsContentFrame(raw, decode)
    ensures ClassifyFrame(raw, decode).Emit? ==> ClassifyFrame(raw, decode).piece == DeltaContent(raw, decode)
  {
  }

  /** How many frames after the first the loop appends before it leaves. */
  function ContentFrames(frames: seq<string>, decode: string -> Option<ChunkObj>): (k: nat)
    ensures k <= |LaterReads(frames)|
  {
    StopIndex(Steps(LaterReads(frames), decode))
  }

  /** The streamed message: it succeeds exactly when the first frame names a role and the loop
      leaves on a stopping frame or at the end; its role is the first frame's and its content is
      the in-order concatenation of the content frames before the stop (never the first frame's
      content, never a stopping frame's); on failure the error is the first malformed frame's. */
  lemma {:induction false} StreamOutcome(frames: seq<string>, decode: string -> Option<ChunkObj>)
    ensures var later := LaterReads(frames);
      var k := ContentFrames(frames, decode);
      && (forall j :: 0 <= j < k ==> IsContentFrame(later[j], decode))
      && (StreamResult(frames, decode).Ok? <==>
            FirstRole(FirstRead(frames), decode).Ok? && (k == |later| || IsStopFrame(later[k], decode)))
    ensures var later := LaterReads(frames);
      var k := ContentFrames(frames, decode);
      StreamResult(frames, decode).Ok? ==>
        && StreamResult(frames, decode).value.role == FirstRole(FirstRead(frames), decode).value
        && StreamResult(frames, decode).value.content
           == Join(seq(k, j requires 0 <= j < k => DeltaContent(later[j], decode)))
    ensures var later := LaterReads(frames);
      var k := ContentFrames(frames, decode);
      StreamResult(frames, decode).Err? ==>
        if FirstRole(FirstRead(frames), decode).Err?
        then StreamResult(frames, decode).error == FirstRole(FirstRead(frames), decode).error
        else k < |later| && !IsStopFrame(later[k], decode) && !IsContentFrame(later[k], decode)
             && StreamResult(frames, decode).error == ClassifyFrame(later[k], decode).error
  {
    var later := LaterReads(frames);
    var steps := Steps(later, decode);
    var k := ContentFrames(frames, decode);
    CollectUpToStop(steps);
    forall j | 0 <= j < |later| ensures steps[j] == ClassifyFrame(later[j], decode) {
      FrameKinds(later[j], decode);
    }
    forall j | 0 <= j <= k && j < |later| { FrameKinds(later[j], decode); }
    if StreamResult(frames, decode).Ok? {
      var pieces := Collect(steps).value;
      assert pieces == seq(k, j requires 0 <= j < k => DeltaContent(later[j], decode));
    }
  }

  /** Frames after the stopping frame are never inspected: appending anything to the stream
      changes nothing. */
  lemma StreamIgnoresLaterFrames(frames: seq<string>, more: seq<string>, decode: string -> Option<ChunkObj>)
    requires ContentFrames(frames, decode) < |LaterReads(frames)|
    ensures StreamResult(frames + more, decode) == StreamResult(frames, decode)
  {
    assert FirstRead(frames + more) == FirstRead(frames);
    assert LaterReads(frames + more) == LaterReads(frames) + more;
    StepsAppend(LaterReads(frames), more, decode);
    CollectIgnoresRest(Steps(LaterReads(frames), decode), Steps(more, decode));
  }

  lemma StepsAppend(a: seq<string>, b: seq<string>, decode: string -> Option<ChunkObj>)
    ensures Steps(a + b, decode) == Steps(a, decode) + Steps(b, decode)
  {
  }

  /** The first frame contributes only its role: two first frames naming the same role give the
      same message. */
  lemma FirstFrameGivesOnlyRole(first1: string, first2: string, later: seq<string>, decode: string -> Option<ChunkObj>)
    requires FirstRole(first1, decode) == FirstRole(first2, decode)
    ensures StreamResult([first1] + later, decode) == StreamResult([first2] + later, decode)
  {
    assert LaterReads([first1] + later) == later == LaterReads([first2] + later);
  }

  /** A non-stopping frame with a present but empty `content` fails the whole call, whatever
      came before it. */
  lemma EmptyContentFails(frames: seq<string>, decode: string -> Option<ChunkObj>, j: nat)
    requires FirstRole(FirstRead(frames), decode).Ok?
    requires j < |LaterReads(frames)|
    requires forall i :: 0 <= i < j ==> IsContentFrame(LaterReads(frames)[i], decode)
    requires var raw := LaterReads(frames)[j];
      && raw != "" && ParseStreamChunk(raw) != DoneSentinel
      && LoadJson(ParseStreamChunk(raw), decode).Some?
      && HasChoices(LoadJson(ParseStreamChunk(raw), decode).value)
      && !LoadJson(ParseStreamChunk(raw), decode).value.choices.value[0].finishReason.Value?
      && LoadJson(ParseStreamChunk(raw), decode).value.choices.value[0].delta.Value?
      && LoadJson(ParseStreamChunk(raw), decode).value.choices.value[0].delta.value.content == Value("")
    ensures StreamResult(frames, decode) == Err(NoContent)
  {
    var later := LaterReads(frames);
    var steps := Steps(later, decode);
    forall i | 0 <= i < j ensures steps[i].Emit? { FrameKinds(later[i], decode); }
    assert steps[j] == Fail(NoContent);
    StopIndexAt(steps, j);
    CollectUpToStop(steps);
  }

  /** An exhausted stream fails: its first read is empty, and `json.loads` raises on the empty
      text before any role is taken. */
  lemma EmptyStreamFails(decode: string -> Option<ChunkObj>)
    ensures StreamResult([], decode) == Err(MalformedJson)
  {
    StripShape("");
  }
}
