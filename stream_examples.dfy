/** Worked streams for the custom client: the frames as the service sends them, with the
    decoder fixed only on the payloads that occur. */
module StreamExamples {
  import opened Wrappers
  import opened Chat
  import opened Wire
  import opened CustomClient

  /** A chunk with one choice carrying the given delta members and `finish_reason`. */
  function DeltaChunk(role: Field<string>, content: Field<string>, finishReason: Field<string>): ChunkObj
  {
    var delta := if role.Absent? && content.Absent? then Absent else Value(MessageObj(role, content, false));
    ChunkObj(Value([ChoiceObj(Absent, delta, finishReason)]))
  }

  function Frame(payload: string): string
  {
    DataPrefix + payload + "\n\n"
  }

  const RolePayload := "{\"choices\":[{\"delta\":{\"role\":\"assistant\"}}]}"
  const HelPayload := "{\"choices\":[{\"delta\":{\"content\":\"Hel\"}}]}"
  const LoPayload := "{\"choices\":[{\"delta\":{\"content\":\"lo\"}}]}"
  const StopPayload := "{\"choices\":[{\"finish_reason\":\"stop\"}]}"
  const WizardPayload := "{\"choices\":[{\"delta\":{\"role\":\"wizard\"}}]}"

  /** A decoder that reads the payloads above as the chunks they spell. */
  predicate DecodesExamples(decode: string -> Option<ChunkObj>)
  {
    && decode(RolePayload) == Some(DeltaChunk(Value("assistant"), Absent, Absent))
    && decode(HelPayload) == Some(DeltaChunk(Absent, Value("Hel"), Absent))
    && decode(LoPayload) == Some(DeltaChunk(Absent, Value("lo"), Absent))
    && decode(StopPayload) == Some(DeltaChunk(Absent, Absent, Value("stop")))
    && decode(WizardPayload) == Some(DeltaChunk(Value("wizard"), Absent, Absent))
  }

  lemma ExampleFrames()
    ensures ParseStreamChunk(Frame(RolePayload)) == RolePayload
    ensures ParseStreamChunk(Frame(HelPayload)) == HelPayload
    ensures ParseStreamChunk(Frame(LoPayload)) == LoPayload
    ensures ParseStreamChunk(Frame(StopPayload)) == StopPayload
    ensures ParseStreamChunk(Frame(WizardPayload)) == WizardPayload
    ensures ParseStreamChunk(Frame(DoneSentinel)) == DoneSentinel
  {
    ParseFramedPayload(RolePayload);
    ParseFramedPayload(HelPayload);
    ParseFramedPayload(LoPayload);
    ParseFramedPayload(StopPayload);
    ParseFramedPayload(WizardPayload);
    ParseFramedPayload(DoneSentinel);
  }

  /** Frames whose text, once cleaned, is the given payloads. */
  predicate Carries(frames: seq<string>, payloads: seq<string>)
  {
    |frames| == |payloads| && forall i :: 0 <= i < |frames| ==> frames[i] != "" && ParseStreamChunk(frames[i]) == payloads[i]
  }

  lemma ContentStep(raw: string, payload: string, text: string, decode: string -> Option<ChunkObj>)
    requires raw != "" && ParseStreamChunk(raw) == payload && payload != DoneSentinel
    requires LoadJson(payload, decode) == Some(DeltaChunk(Absent, Value(text), Absent)) && text != ""
    ensures ClassifyFrame(raw, decode) == Stream.Emit(text)
  {
  }

  lemma FinishStep(raw: string, payload: string, decode: string -> Option<ChunkObj>)
    requires raw != "" && ParseStreamChunk(raw) == payload && payload != DoneSentinel
    requires LoadJson(payload, decode) == Some(DeltaChunk(Absent, Absent, Value("stop")))
    ensures ClassifyFrame(raw, decode) == Stream.Stop
  {
  }

  lemma DoneStep(raw: string, decode: string -> Option<ChunkObj>)
    requires raw != "" && ParseStreamChunk(raw) == DoneSentinel
    ensures ClassifyFrame(raw, decode) == Stream.Stop
  {
  }

  /** Two content frames, "Hel" then "lo", followed by a stopping frame, collect to both
      pieces. */
  lemma CollectHello(later: seq<string>, decode: string -> Option<ChunkObj>)
    requires |later| >= 3
    requires ClassifyFrame(later[0], decode) == Stream.Emit("Hel")
    requires ClassifyFrame(later[1], decode) == Stream.Emit("lo")
    requires ClassifyFrame(later[2], decode) == Stream.Stop
    ensures Stream.Collect(Steps(later, decode)) == Ok(["Hel", "lo"])
  {
    var steps := Steps(later, decode);
    assert steps[1..][1..][0] == steps[2];
    assert Stream.Collect(steps[1..][1..]) == Ok([]);
    assert steps[1..][0] == steps[1];
    assert ["lo"] + [] == ["lo"];
    assert Stream.Collect(steps[1..]) == Ok(["lo"]);
    assert ["Hel"] + ["lo"] == ["Hel", "lo"];
  }

  lemma HelloFromSteps(frames: seq<string>, decode: string -> Option<ChunkObj>)
    requires |frames| >= 4 && FirstRole(frames[0], decode) == Ok(AI)
    requires ClassifyFrame(frames[1], decode) == Stream.Emit("Hel")
    requires ClassifyFrame(frames[2], decode) == Stream.Emit("lo")
    requires ClassifyFrame(frames[3], decode) == Stream.Stop
    ensures StreamResult(frames, decode) == Ok(Message(AI, "Hello"))
  {
    CollectHello(frames[1..], decode);
    assert Text.Join(["Hel", "lo"]) == "Hello";
  }

  /** A role frame, two content frames and a `finish_reason` frame give the assistant message
      "Hello", whatever frames follow the stop. */
  lemma HelloByFinishReason(frames: seq<string>, decode: string -> Option<ChunkObj>)
    requires DecodesExamples(decode)
    requires |frames| >= 4 && Carries(frames[..4], [RolePayload, HelPayload, LoPayload, StopPayload])
    ensures StreamResult(frames, decode) == Ok(Message(AI, "Hello"))
  {
    assert forall i :: 0 <= i < 4 ==> frames[..4][i] == frames[i];
    assert ParseStreamChunk(frames[0]) == RolePayload;
    assert FirstRole(frames[0], decode) == Ok(AI);
    ContentStep(frames[1], HelPayload, "Hel", decode);
    ContentStep(frames[2], LoPayload, "lo", decode);
    FinishStep(frames[3], StopPayload, decode);
    HelloFromSteps(frames, decode);
  }

  /** The same stream ended by the `[DONE]` sentinel instead of a `finish_reason` also gives
      "Hello". */
  lemma HelloByDoneSentinel(frames: seq<string>, decode: string -> Option<ChunkObj>)
    requires DecodesExamples(decode)
    requires Carries(frames, [RolePayload, HelPayload, LoPayload, DoneSentinel])
    ensures StreamResult(frames, decode) == Ok(Message(AI, "Hello"))
  {
    assert ParseStreamChunk(frames[0]) == RolePayload;
    assert FirstRole(frames[0], decode) == Ok(AI);
    ContentStep(frames[1], HelPayload, "Hel", decode);
    ContentStep(frames[2], LoPayload, "lo", decode);
    DoneStep(frames[3], decode);
    HelloFromSteps(frames, decode);
  }

  /** A first frame naming an unknown role fails before any later frame is read. */
  lemma WizardRoleFails(frames: seq<string>, decode: string -> Option<ChunkObj>)
    requires DecodesExamples(decode)
    requires frames != [] && ParseStreamChunk(frames[0]) == WizardPayload
    ensures StreamResult(frames, decode) == Err(WrongRole(Some("wizard")))
  {
    assert FirstRole(FirstRead(frames), decode) == Err(WrongRole(Some("wizard")));
  }
}
