/** What travels between the clients and the completion service, once JSON is decoded:
    request bodies, reply objects and the errors raised on malformed replies. */
module Wire {
  import opened Wrappers
  import opened Chat

  /** One member of a JSON object: a missing key, an explicit `null`, or a value. */
  datatype Field<T> = Absent | Null | Value(value: T)

  /** `obj.get(key)`: a missing key and `null` both read as `None`. */
  function Get<T>(f: Field<T>): (r: Option<T>)
    ensures r.Some? <==> f.Value?
    ensures f.Value? ==> r == Some(f.value)
  {
    match f
    case Value(v) => Some(v)
    case _ => None
  }

  /** A `message` or `delta` object: its `role`, its `content`, and whether it has other keys. */
  datatype MessageObj = MessageObj(role: Field<string>, content: Field<string>, otherKeys: bool)

  /** A JSON object is falsy in Python exactly when it has no keys. */
  predicate IsEmptyObj(o: MessageObj)
  {
    o.role.Absent? && o.content.Absent? && !o.otherKeys
  }

  /** Python truthiness of `obj.get(key)` for an object-valued member. */
  predicate TruthyObj(f: Field<MessageObj>)
  {
    f.Value? && !IsEmptyObj(f.value)
  }

  /** Python truthiness of `obj.get(key)` for a string-valued member: `None` and `""` are falsy. */
  predicate TruthyText(f: Field<string>)
  {
    f.Value? && f.value != ""
  }

  /** One element of `choices`: the reply `message`, the streamed `delta`, and `finish_reason`. */
  datatype ChoiceObj = ChoiceObj(message: Field<MessageObj>, delta: Field<MessageObj>, finishReason: Field<string>)

  /** A decoded reply body or stream frame: an object with a `choices` array. */
  datatype ChunkObj = ChunkObj(choices: Field<seq<ChoiceObj>>)

  /** Python truthiness of `obj.get('choices', [])`: missing, `null` and `[]` are falsy. */
  predicate HasChoices(c: ChunkObj)
  {
    c.choices.Value? && c.choices.value != []
  }

  /** The exceptions the clients raise on a reply they cannot use. */
  datatype Error =
    | NoChoices                        // "No choices in response found"
    | NoChoicesInChunk                 // "No choices in response chunk found" (SDK stream)
    | NoMessage                        // "No message in response found"
    | WrongRole(raw: Option<string>)   // "Wrong role '<raw>'"
    | NoDelta                          // "No delta in response found"
    | NoContent                        // "No content in response found"
    | MalformedJson                    // json.loads rejected the frame text
    | NullDelta                        // first frame with `"delta": null`: `None.get` raises AttributeError
    | JoinTypeError                    // `''.join` met a `None` piece (SDK stream)

  /** One request to the service: where it goes, the `model` field, the `messages` field
      and whether incremental delivery was asked for. */
  datatype Request = Request(url: string, model: string, messages: seq<map<string, string>>, stream: bool)

  /** `_prepare_request_messages`: every message's `to_dict()`, in order. */
  function PrepareRequestMessages(messages: seq<Message>): (r: seq<map<string, string>>)
    ensures |r| == |messages|
    ensures forall i :: 0 <= i < |r| ==> FromDict(r[i]) == Some(messages[i])
  {
    seq(|messages|, i requires 0 <= i < |messages| => ToDict(messages[i]))
  }

  /** Reading a `messages` array back; `None` when some entry is not a message. */
  function ParseRequestMessages(dicts: seq<map<string, string>>): Option<seq<Message>>
  {
    if dicts == [] then Some([])
    else match (FromDict(dicts[0]), ParseRequestMessages(dicts[1..]))
      case (Some(m), Some(rest)) => Some([m] + rest)
      case _ => None
  }

  /** The serialised conversation reads back as the same messages in the same order. */
  lemma {:induction false} RequestMessagesRoundTrip(messages: seq<Message>)
    ensures ParseRequestMessages(PrepareRequestMessages(messages)) == Some(messages)
  {
    if messages != [] {
      var dicts := PrepareRequestMessages(messages);
      assert dicts[1..] == PrepareRequestMessages(messages[1..]);
      DictRoundTrip(messages[0]);
      RequestMessagesRoundTrip(messages[1..]);
      assert [messages[0]] + messages[1..] == messages;
    }
  }
}
