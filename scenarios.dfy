/** The frames exercised by the repository's own unit tests, decoded by the
    model. */
module Scenarios {
  import opened Json
  import opened Serde
  import opened Schema
  import opened StreamResponses
  import opened UntaggedDecoding
  import opened TaggedDecoding

  /** `{"type":"Connected","request_id":"test-123","sequence_id":0}` */
  lemma ConnectedFrameDecodes()
    ensures Decode(Object(map["type" := Str("Connected"), "request_id" := Str("test-123"), "sequence_id" := Num(Int(0))]))
         == Ok(ConnectedResponse("Connected", "test-123", 0))
  {
    var m := map["type" := Str("Connected"), "request_id" := Str("test-123"), "sequence_id" := Num(Int(0))];
    assert m.Keys == {"type", "request_id", "sequence_id"};
    MinimalConnectedFrame(m);
  }

  /** A word object holding only `word` and `confidence`. */
  function FluxWord(word: string, confidence: real): Json {
    Object(map["word" := Str(word), "confidence" := Num(Float(confidence))])
  }

  /** `{"word":"final.","confidence":1.0}` decodes although `start` and
      `end` are missing; the complete form carries them. */
  lemma WordWithoutTimestamps()
    ensures DecodeWord(FluxWord("final.", 1.0)) == Ok(Word("final.", None, None, 1.0, None, None, None))
    ensures DecodeWord(Object(map["word" := Str("final."), "start" := Num(Float(0.0)), "end" := Num(Float(1.0)),
                                  "confidence" := Num(Float(1.0))]))
         == Ok(Word("final.", Some(0.0), Some(1.0), 1.0, None, None, None))
  {
    WordWithoutOptionalFields(FluxWord("final.", 1.0).fields);
  }

  /** A word with `start` but no `end`, and an integer `confidence`: each
      optional field is read on its own, and the integer reads as a float. */
  lemma WordWithSomeOptionalFields()
    ensures DecodeWord(Object(map["word" := Str("a"), "confidence" := Num(Int(1)), "start" := Num(Float(0.5))]))
         == Ok(Word("a", Some(0.5), None, 1.0, None, None, None))
  {
    var j := Object(map["word" := Str("a"), "confidence" := Num(Int(1)), "start" := Num(Float(0.5))]);
    assert IsWord(j);
    var w := DecodeWord(j).value;
    assert w.start == Some(0.5) && w.end == None;
  }

  /** A conversational TurnInfo frame in the form the service sends. */
  function TurnInfoFrame(requestId: string, event: string, windowEnd: real, transcript: string,
                         words: seq<Json>, eotConfidence: real, sequenceId: int): map<string, Json>
  {
    map[
      "type" := Str("TurnInfo"),
      "request_id" := Str(requestId),
      "event" := Str(event),
      "turn_index" := Num(Int(0)),
      "audio_window_start" := Num(Float(0.0)),
      "audio_window_end" := Num(Float(windowEnd)),
      "transcript" := Str(transcript),
      "words" := Array(words),
      "end_of_turn_confidence" := Num(Float(eotConfidence)),
      "sequence_id" := Num(Int(sequenceId))]
  }

  lemma TurnInfoFrameMembers(requestId: string, event: string, windowEnd: real, transcript: string,
                             words: seq<Json>, eotConfidence: real, sequenceId: int)
    ensures var m := TurnInfoFrame(requestId, event, windowEnd, transcript, words, eotConfidence, sequenceId);
      && "channel" !in m && "created" !in m && "start" !in m
      && m["type"] == Str("TurnInfo") && m["request_id"] == Str(requestId) && m["event"] == Str(event)
      && m["turn_index"] == Num(Int(0)) && m["audio_window_start"] == Num(Float(0.0))
      && m["audio_window_end"] == Num(Float(windowEnd)) && m["transcript"] == Str(transcript)
      && m["words"] == Array(words) && m["end_of_turn_confidence"] == Num(Float(eotConfidence))
      && m["sequence_id"] == Num(Int(sequenceId))
  {
  }

  /** A TurnInfo frame with a known event name and well-formed words decodes
      as `TurnInfoResponse`, keeping its type, identifiers, event, transcript
      and words. */
  lemma KnownEventFrameDecodes(requestId: string, e: TurnEvent, windowEnd: real, transcript: string,
                               words: seq<Json>, eotConfidence: real, sequenceId: int)
    requires ArrayOf(IsWord)(Array(words)) && 0 <= sequenceId < 0x1_0000_0000_0000_0000
    ensures var m := TurnInfoFrame(requestId, TurnEventName(e), windowEnd, transcript, words, eotConfidence, sequenceId);
      && Decode(Object(m)).Ok?
      && var v := Decode(Object(m)).value;
      && v.TurnInfoResponse?
      && v.typeField == "TurnInfo" && v.requestId == requestId && v.event == e
      && v.transcript == transcript && v.sequenceId as int == sequenceId
      && v.words.Some? && |v.words.value| == |words|
      && forall i :: 0 <= i < |words| ==> DecodeWord(words[i]) == Ok(v.words.value[i])
  {
    var m := TurnInfoFrame(requestId, TurnEventName(e), windowEnd, transcript, words, eotConfidence, sequenceId);
    TurnInfoFrameMembers(requestId, TurnEventName(e), windowEnd, transcript, words, eotConfidence, sequenceId);
    assert IsTurnEvent(m["event"]);
    assert FitsTurnInfo(Object(m));
    TurnInfoFrameDecodesAsTurnInfo(m);
    TurnInfoValuesPreserved(m);
    TurnEventRoundTrip(e);
    var v := Decode(Object(m)).value;
    TurnInfoMembers(m, v);
  }

  /** The same frame keeps its turn index, audio window and end-of-turn
      confidence. */
  lemma KnownEventFrameTiming(requestId: string, e: TurnEvent, windowEnd: real, transcript: string,
                              words: seq<Json>, eotConfidence: real, sequenceId: int)
    requires ArrayOf(IsWord)(Array(words)) && 0 <= sequenceId < 0x1_0000_0000_0000_0000
    ensures var m := TurnInfoFrame(requestId, TurnEventName(e), windowEnd, transcript, words, eotConfidence, sequenceId);
      && Decode(Object(m)).Ok?
      && var v := Decode(Object(m)).value;
      && v.TurnInfoResponse?
      && v.turnIndex == 0 && v.audioWindowStart == 0.0 && v.audioWindowEnd == windowEnd
      && v.endOfTurnConfidence == eotConfidence
  {
    var m := TurnInfoFrame(requestId, TurnEventName(e), windowEnd, transcript, words, eotConfidence, sequenceId);
    TurnInfoFrameMembers(requestId, TurnEventName(e), windowEnd, transcript, words, eotConfidence, sequenceId);
    assert IsTurnEvent(m["event"]);
    assert FitsTurnInfo(Object(m));
    TurnInfoFrameDecodesAsTurnInfo(m);
    var v := Decode(Object(m)).value;
    assert IntAt(m, "turn_index", v.turnIndex as int);
    assert F64At(m, "audio_window_start", v.audioWindowStart);
    assert F64At(m, "audio_window_end", v.audioWindowEnd);
    assert F64At(m, "end_of_turn_confidence", v.endOfTurnConfidence);
  }

  /** The StartOfTurn frame: `TurnInfoResponse`, not `ConnectedResponse`. */
  lemma StartOfTurnFrame()
    ensures var m := TurnInfoFrame("ca47dc5f-27bc-440c-b71f-d8eb6359df71", "StartOfTurn", 0.48, "Fine",
                                   [FluxWord("Fine", 0.4573)], 0.0189, 2);
      && Decode(Object(m)).Ok?
      && var v := Decode(Object(m)).value;
      && v.TurnInfoResponse? && v.typeField == "TurnInfo" && v.event == StartOfTurn
      && v.requestId == "ca47dc5f-27bc-440c-b71f-d8eb6359df71" && v.transcript == "Fine" && v.sequenceId == 2
  {
    assert IsWord(FluxWord("Fine", 0.4573));
    KnownEventFrameDecodes("ca47dc5f-27bc-440c-b71f-d8eb6359df71", StartOfTurn, 0.48, "Fine",
                           [FluxWord("Fine", 0.4573)], 0.0189, 2);
  }

  /** The Update frame, which once decoded as `ConnectedResponse`: it now
      decodes as `TurnInfoResponse` with the values the tests expect. */
  lemma UpdateFrame()
    ensures var m := TurnInfoFrame("ca47dc5f-27bc-440c-b71f-d8eb6359df71", "Update", 0.72, "final.",
                                   [FluxWord("final.", 1.0)], 0.1776, 3);
      && Decode(Object(m)).Ok?
      && var v := Decode(Object(m)).value;
      && v.TurnInfoResponse? && !v.ConnectedResponse? && v.event == Update
      && v.typeField == "TurnInfo" && v.requestId == "ca47dc5f-27bc-440c-b71f-d8eb6359df71"
      && v.transcript == "final." && v.sequenceId == 3
  {
    assert IsWord(FluxWord("final.", 1.0));
    KnownEventFrameDecodes("ca47dc5f-27bc-440c-b71f-d8eb6359df71", Update, 0.72, "final.",
                           [FluxWord("final.", 1.0)], 0.1776, 3);
  }

  /** Word objects of the reduced form, one per (word, confidence) pair. */
  function FluxWords(pairs: seq<(string, real)>): seq<Json> {
    seq(|pairs|, i requires 0 <= i < |pairs| => FluxWord(pairs[i].0, pairs[i].1))
  }

  /** A reduced word reads back with its word and confidence and nothing else. */
  lemma FluxWordDecodes(word: string, confidence: real)
    ensures DecodeWord(FluxWord(word, confidence)) == Ok(Word(word, None, None, confidence, None, None, None))
  {
    WordWithoutOptionalFields(FluxWord(word, confidence).fields);
  }

  lemma FluxWordsAreWords(pairs: seq<(string, real)>)
    ensures ArrayOf(IsWord)(Array(FluxWords(pairs))) && |FluxWords(pairs)| == |pairs|
  {
    var ws := FluxWords(pairs);
    forall i | 0 <= i < |ws| ensures IsWord(ws[i]) {
      assert ws[i] == FluxWord(pairs[i].0, pairs[i].1);
    }
  }

  /** The twelve words of the longer Update frame. */
  const LongerWords: seq<(string, real)> :=
    [("final.", 1.0), ("Where", 0.707), ("was", 0.9976), ("the", 0.9956), ("greatest", 0.9985), ("moment?", 0.9971),
     ("All", 0.9956), ("over", 0.9956), ("Uganda,", 1.0), ("we", 0.9956), ("made", 0.998), ("everyone", 0.9995)]

  /** The longer Update frame keeps its whole transcript and all twelve words. */
  lemma LongerTranscriptFrame()
    ensures var m := TurnInfoFrame("ca47dc5f-27bc-440c-b71f-d8eb6359df71", "Update", 5.28,
                                   "final. Where was the greatest moment? All over Uganda, we made everyone happy.",
                                   FluxWords(LongerWords), 0.0198, 21);
      && Decode(Object(m)).Ok?
      && var v := Decode(Object(m)).value;
      && v.TurnInfoResponse? && v.event == Update && v.sequenceId == 21
      && v.typeField == "TurnInfo" && v.requestId == "ca47dc5f-27bc-440c-b71f-d8eb6359df71"
      && v.transcript == "final. Where was the greatest moment? All over Uganda, we made everyone happy."
      && v.words.Some? && |v.words.value| == 12
      && forall i :: 0 <= i < 12 ==>
           v.words.value[i] == Word(LongerWords[i].0, None, None, LongerWords[i].1, None, None, None)
  {
    var ws := FluxWords(LongerWords);
    FluxWordsAreWords(LongerWords);
    KnownEventFrameDecodes("ca47dc5f-27bc-440c-b71f-d8eb6359df71", Update, 5.28,
                           "final. Where was the greatest moment? All over Uganda, we made everyone happy.",
                           ws, 0.0198, 21);
    var m := TurnInfoFrame("ca47dc5f-27bc-440c-b71f-d8eb6359df71", "Update", 5.28,
                           "final. Where was the greatest moment? All over Uganda, we made everyone happy.",
                           ws, 0.0198, 21);
    var v := Decode(Object(m)).value;
    forall i | 0 <= i < 12
      ensures v.words.value[i] == Word(LongerWords[i].0, None, None, LongerWords[i].1, None, None, None)
    {
      assert ws[i] == FluxWord(LongerWords[i].0, LongerWords[i].1);
      FluxWordDecodes(LongerWords[i].0, LongerWords[i].1);
    }
  }

  /** Each of the five event names in a frame with an empty `words` array. */
  lemma AllTurnEventFrames(e: TurnEvent)
    ensures var m := TurnInfoFrame("test-123", TurnEventName(e), 1.0, "test", [], 0.5, 1);
      && Decode(Object(m)).Ok?
      && var v := Decode(Object(m)).value;
      && v.TurnInfoResponse? && v.typeField == "TurnInfo" && v.event == e && v.words == Some([])
  {
    KnownEventFrameDecodes("test-123", e, 1.0, "test", [], 0.5, 1);
  }

  /** An event name the decoder does not know makes the TurnInfo shape fail,
      and the frame falls through to `ConnectedResponse`: the transcript is
      dropped and the stored `type` still reads "TurnInfo". */
  lemma UnknownEventDecodesAsConnected()
    ensures Decode(Object(TurnInfoFrame("test-123", "Paused", 1.0, "test", [], 0.5, 1)))
         == Ok(ConnectedResponse("TurnInfo", "test-123", 1))
  {
    var m := TurnInfoFrame("test-123", "Paused", 1.0, "test", [], 0.5, 1);
    TurnInfoFrameMembers("test-123", "Paused", 1.0, "test", [], 0.5, 1);
    assert TurnEventFromName("Paused").Err?;
    assert !IsTurnEvent(m["event"]);
    assert !Fits(4, Object(m));
    FirstFitWins(5, Object(m));
  }

  /** Dispatching on the discriminant, the same frame is reported as an
      unknown event instead of being read as a connection acknowledgement. */
  lemma UnknownEventRejectedByTag()
    ensures DecodeTagged(Object(TurnInfoFrame("test-123", "Paused", 1.0, "test", [], 0.5, 1)))
         == Err(UnknownVariant("Paused"))
  {
    TurnInfoFrameMembers("test-123", "Paused", 1.0, "test", [], 0.5, 1);
    assert TurnEventFromName("Paused").Err?;
  }

  /** Frames with a known event name read the same under both decoders. */
  lemma KnownEventFrameTagged(e: TurnEvent)
    ensures var j := Object(TurnInfoFrame("test-123", TurnEventName(e), 1.0, "test", [], 0.5, 1));
      DecodeTagged(j) == Decode(j)
  {
    var j := Object(TurnInfoFrame("test-123", TurnEventName(e), 1.0, "test", [], 0.5, 1));
    AllTurnEventFrames(e);
    TurnInfoFrameMembers("test-123", TurnEventName(e), 1.0, "test", [], 0.5, 1);
    TaggedAgreesWithUntagged(j);
  }
}
