/** What the untagged decoder of server frames does: which variant a frame
    lands in, what it ignores, and that it reads back what the serialiser
    writes. */
module UntaggedDecoding {
  import opened Json
  import opened Serde
  import opened Schema
  import opened StreamResponses

  // ---------------------------------------------------------------------------
  // First match over an ordered list of decoders

  /** The first decoder that succeeds decides the result. */
  lemma {:induction false} FirstMatchCorrect(decoders: seq<Json -> Result<StreamResponse>>, j: Json)
    ensures forall k: nat :: IsFirstMatch(decoders, j, k) ==> FirstMatch(decoders, j) == decoders[k](j)
  {
    if decoders != [] {
      var tail := decoders[1..];
      FirstMatchCorrect(tail, j);
      assert forall i :: 1 <= i < |decoders| ==> decoders[i] == tail[i - 1];
      forall k: nat | IsFirstMatch(decoders, j, k) ensures FirstMatch(decoders, j) == decoders[k](j) {
        if k > 0 {
          assert IsFirstMatch(tail, j, k - 1);
        }
      }
    }
  }

  /** The decoder at position `k` accepts exactly the frames that supply the
      fields of the `k`-th variant, and yields that variant. */
  lemma VariantDecoder(k: nat, j: Json)
    requires k < 7
    ensures Variants[k](j).Ok? <==> Fits(k, j)
    ensures Variants[k](j).Ok? ==> Variants[k](j).value.Index() == k
  {
  }

  /** A frame decodes as the first variant, in declaration order, whose fields
      it supplies; it fails to decode only when it fits no variant. */
  lemma DecodeIsFirstFit(j: Json)
    ensures Decode(j).Err? <==> forall k :: 0 <= k < 7 ==> !Fits(k, j)
    ensures Decode(j).Err? ==> Decode(j).error == NoVariantMatched
    ensures Decode(j).Ok? ==>
      var k := Decode(j).value.Index();
      && Fits(k, j)
      && Decode(j) == Variants[k](j)
      && forall i :: 0 <= i < k ==> !Fits(i, j)
  {
    FirstMatchCorrect(Variants, j);
    forall k | 0 <= k < 7 ensures Variants[k](j).Ok? <==> Fits(k, j) {
      VariantDecoder(k, j);
    }
    if Decode(j).Ok? {
      var k :| 0 <= k < 7 && Variants[k](j).Ok? && forall i :: 0 <= i < k ==> Variants[i](j).Err?
        by { FirstFitExists(j); }
      assert IsFirstMatch(Variants, j, k);
      VariantDecoder(k, j);
    }
  }

  /** A frame that decodes has a first variant that succeeds on it; Dafny
      finds it among the seven cases of `Decode`'s contract. */
  lemma FirstFitExists(j: Json)
    requires Decode(j).Ok?
    ensures exists k :: 0 <= k < 7 && Variants[k](j).Ok? && forall i :: 0 <= i < k ==> Variants[i](j).Err?
  {
  }

  /** Conversely: the first variant whose fields the frame supplies is the
      one it decodes as. */
  lemma FirstFitWins(k: nat, j: Json)
    requires k < 7 && Fits(k, j)
    requires forall i :: 0 <= i < k ==> !Fits(i, j)
    ensures Decode(j) == Variants[k](j)
    ensures Decode(j).Ok? && Decode(j).value.Index() == k
  {
    forall i | 0 <= i < k ensures Variants[i](j).Err? { VariantDecoder(i, j); }
    VariantDecoder(k, j);
    assert IsFirstMatch(Variants, j, k);
    FirstMatchCorrect(Variants, j);
  }

  // ---------------------------------------------------------------------------
  // TurnInfo against Connected

  /** Every frame that supplies the TurnInfo fields also supplies the
      Connected ones: the two shapes overlap, and only the declaration order
      keeps TurnInfo frames out of `ConnectedResponse`. */
  lemma TurnInfoFieldsIncludeConnected(j: Json)
    requires FitsTurnInfo(j)
    ensures FitsConnected(j)
  {
  }

  /** A frame with all TurnInfo fields that carries no `channel` and no
      `created` member (which the earlier shapes require) decodes as
      `TurnInfoResponse`, never as `ConnectedResponse`, whether or not its
      words carry `start` and `end`. */
  lemma TurnInfoFrameDecodesAsTurnInfo(m: map<string, Json>)
    requires FitsTurnInfo(Object(m))
    requires "channel" !in m && "created" !in m
    ensures Decode(Object(m)) == DecodeTurnInfoResponse(Object(m))
    ensures Decode(Object(m)).Ok? && Decode(Object(m)).value.TurnInfoResponse?
  {
    FirstFitWins(4, Object(m));
  }

  /** The TurnInfo decoder keeps the transcript, the request and sequence
      identifiers and the event; an absent or null `words` gives `None`, an
      empty array gives `Some([])`. */
  lemma TurnInfoValuesPreserved(m: map<string, Json>)
    requires FitsTurnInfo(Object(m))
    ensures var v := DecodeTurnInfoResponse(Object(m)).value;
      && m["transcript"] == Str(v.transcript)
      && m["request_id"] == Str(v.requestId)
      && m["sequence_id"] == Num(Int(v.sequenceId as int))
      && m["turn_index"] == Num(Int(v.turnIndex as int))
      && (m["event"].Str? ==> m["event"] == Str(TurnEventName(v.event)))
      && (v.words.None? <==> "words" !in m || m["words"] == Null)
      && ("words" in m && m["words"] == Array([]) ==> v.words == Some([]))
  {
  }

  /** A frame of exactly `type`, `request_id` and `sequence_id` fits no
      earlier variant and lacks the `code` of `ErrorResponse`: it decodes as
      `ConnectedResponse`, carrying both values verbatim. */
  lemma MinimalConnectedFrame(m: map<string, Json>)
    requires m.Keys == {"type", "request_id", "sequence_id"}
    requires m["type"].Str? && m["request_id"].Str? && IsU64(m["sequence_id"])
    ensures Decode(Object(m)) == Ok(ConnectedResponse(m["type"].s, m["request_id"].s, m["sequence_id"].n.i as uint64))
  {
    assert "start" !in m && "created" !in m && "channel" !in m && "event" !in m;
    FirstFitWins(5, Object(m));
  }

  /** An `ErrorResponse` frame that also carries a string `request_id` fits
      `ConnectedResponse`, which is tried first, so it never decodes as
      `ErrorResponse`. */
  lemma ErrorFrameWithRequestIdIsNotError(j: Json)
    requires FitsError(j) && HasRequired(j.fields, "request_id", IsString)
    ensures Decode(j).Ok? && !Decode(j).value.ErrorResponse?
  {
    DecodeIsFirstFit(j);
    assert Fits(5, j);
  }

  // ---------------------------------------------------------------------------
  // The `type` member is stored, never compared

  /** When a variant stores `type`, it holds the frame's `type` string
      verbatim. */
  lemma TypeFieldIsVerbatim(j: Json)
    requires Decode(j).Ok? && Decode(j).value.HasTypeField()
    ensures j.Object? && "type" in j.fields && j.fields["type"] == Str(Decode(j).value.typeField)
  {
    DecodeIsFirstFit(j);
  }

  /** The variant with its stored `type` replaced by `t`. */
  function WithTypeField(v: StreamResponse, t: string): StreamResponse {
    match v
    case TranscriptResponse(_, a, b, c, d, e, f, g, h) => TranscriptResponse(t, a, b, c, d, e, f, g, h)
    case TerminalResponse(_, _, _, _) => v
    case SpeechStartedResponse(_, a, b) => SpeechStartedResponse(t, a, b)
    case UtteranceEndResponse(_, a, b) => UtteranceEndResponse(t, a, b)
    case TurnInfoResponse(_, a, b, c, d, e, f, g, h, i) => TurnInfoResponse(t, a, b, c, d, e, f, g, h, i)
    case ConnectedResponse(_, a, b) => ConnectedResponse(t, a, b)
    case ErrorResponse(_, a, b, c) => ErrorResponse(t, a, b, c)
  }

  /** `r'` succeeds exactly when `r` does, with `r`'s value retyped to `t`. */
  predicate RetypedOf(r': Result<StreamResponse>, r: Result<StreamResponse>, t: string) {
    (r'.Ok? <==> r.Ok?) && (r.Ok? ==> r'.value == WithTypeField(r.value, t))
  }

  lemma {:induction false} FirstMatchRetyped(decoders: seq<Json -> Result<StreamResponse>>, j: Json, j': Json, t: string)
    requires forall i :: 0 <= i < |decoders| ==> RetypedOf(decoders[i](j'), decoders[i](j), t)
    ensures RetypedOf(FirstMatch(decoders, j'), FirstMatch(decoders, j), t)
  {
    if decoders != [] {
      var tail := decoders[1..];
      assert forall i :: 0 <= i < |tail| ==> tail[i] == decoders[i + 1];
      FirstMatchRetyped(tail, j, j', t);
    }
  }

  /** Replacing the `type` string by any other string selects the same
      variant with the same values; only the stored `type` changes. */
  lemma TypeValueNotCompared(m: map<string, Json>, t: string)
    requires "type" in m && m["type"].Str?
    ensures Decode(Object(m["type" := Str(t)])).Ok? <==> Decode(Object(m)).Ok?
    ensures Decode(Object(m)).Ok? ==>
      Decode(Object(m["type" := Str(t)])).value == WithTypeField(Decode(Object(m)).value, t)
  {
    var m' := m["type" := Str(t)];
    forall i | 0 <= i < |Variants| ensures RetypedOf(Variants[i](Object(m')), Variants[i](Object(m)), t) {
      VariantRetyped(i, m, t);
    }
    FirstMatchRetyped(Variants, Object(m), Object(m'), t);
  }

  lemma VariantRetyped(k: nat, m: map<string, Json>, t: string)
    requires k < 7 && "type" in m && m["type"].Str?
    ensures RetypedOf(Variants[k](Object(m["type" := Str(t)])), Variants[k](Object(m)), t)
  {
    var m' := m["type" := Str(t)];
    var s := m["type"].s;
    assert m'["type" := Str(s)] == m;
    if Variants[k](Object(m)).Ok? {
      VariantRetypedOk(k, m, t);
    }
    if Variants[k](Object(m')).Ok? {
      VariantRetypedOk(k, m', s);
    }
  }

  /** A frame the `k`-th decoder accepts is still accepted with another
      `type` string, giving the same value but for the stored `type`. */
  lemma VariantRetypedOk(k: nat, m: map<string, Json>, t: string)
    requires k < 7 && Variants[k](Object(m)).Ok?
    ensures Variants[k](Object(m["type" := Str(t)])) == Ok(WithTypeField(Variants[k](Object(m)).value, t))
  {
    var m' := m["type" := Str(t)];
    match k
    case 0 => TranscriptRetypedOk(m, t);
    case 1 => UnnamedKeysIgnored(1, m, map["type" := Str(t)]); assert m + map["type" := Str(t)] == m';
    case 2 =>
    case 3 =>
    case 4 => TurnInfoRetypedOk(m, t);
    case 5 =>
    case _ =>
  }

  lemma TranscriptRetypedOk(m: map<string, Json>, t: string)
    requires DecodeTranscriptResponse(Object(m)).Ok?
    ensures DecodeTranscriptResponse(Object(m["type" := Str(t)])) == Ok(WithTypeField(DecodeTranscriptResponse(Object(m)).value, t))
  {
    var m' := m["type" := Str(t)];
    var v := DecodeTranscriptResponse(Object(m)).value;
    TranscriptMembers(m, v);
    TranscriptMembers(m', WithTypeField(v, t));
  }

  lemma TurnInfoRetypedOk(m: map<string, Json>, t: string)
    requires DecodeTurnInfoResponse(Object(m)).Ok?
    ensures DecodeTurnInfoResponse(Object(m["type" := Str(t)])) == Ok(WithTypeField(DecodeTurnInfoResponse(Object(m)).value, t))
  {
    var m' := m["type" := Str(t)];
    var v := DecodeTurnInfoResponse(Object(m)).value;
    TurnInfoMembers(m, v);
    TurnInfoMembers(m', WithTypeField(v, t));
  }

  /** The Transcript decoder yields `v` exactly when each member decodes to
      the matching component of `v`. */
  lemma TranscriptMembers(m: map<string, Json>, v: StreamResponse)
    ensures DecodeTranscriptResponse(Object(m)) == Ok(v) <==>
      && v.TranscriptResponse?
      && RequiredField(m, "type", AsString) == Ok(v.typeField)
      && RequiredField(m, "start", AsF64) == Ok(v.start)
      && RequiredField(m, "duration", AsF64) == Ok(v.duration)
      && RequiredField(m, "is_final", AsBool) == Ok(v.isFinal)
      && RequiredField(m, "speech_final", AsBool) == Ok(v.speechFinal)
      && RequiredField(m, "from_finalize", AsBool) == Ok(v.fromFinalize)
      && RequiredField(m, "channel", DecodeChannel) == Ok(v.channel)
      && RequiredField(m, "metadata", DecodeMetadata) == Ok(v.metadata)
      && RequiredField(m, "channel_index", AsI32Seq) == Ok(v.channelIndex)
  {
  }

  /** The TurnInfo decoder yields `v` exactly when each member decodes to
      the matching component of `v`. */
  lemma TurnInfoMembers(m: map<string, Json>, v: StreamResponse)
    ensures DecodeTurnInfoResponse(Object(m)) == Ok(v) <==>
      && v.TurnInfoResponse?
      && RequiredField(m, "type", AsString) == Ok(v.typeField)
      && RequiredField(m, "request_id", AsString) == Ok(v.requestId)
      && RequiredField(m, "event", DecodeTurnEvent) == Ok(v.event)
      && RequiredField(m, "turn_index", AsU32) == Ok(v.turnIndex)
      && RequiredField(m, "audio_window_start", AsF64) == Ok(v.audioWindowStart)
      && RequiredField(m, "audio_window_end", AsF64) == Ok(v.audioWindowEnd)
      && RequiredField(m, "transcript", AsString) == Ok(v.transcript)
      && OptionalField(m, "words", DecodeWords) == Ok(v.words)
      && RequiredField(m, "end_of_turn_confidence", AsF64) == Ok(v.endOfTurnConfidence)
      && RequiredField(m, "sequence_id", AsU64) == Ok(v.sequenceId)
  {
  }

  // ---------------------------------------------------------------------------
  // Members a variant does not name are ignored

  /** Adding or overwriting members the variant does not name leaves its
      decoder's result unchanged. */
  lemma UnnamedKeysIgnored(k: nat, m: map<string, Json>, extra: map<string, Json>)
    requires k < 7
    requires extra.Keys !! VariantKeys(k)
    ensures Variants[k](Object(m + extra)) == Variants[k](Object(m))
  {
    var m' := m + extra;
    forall key | key in VariantKeys(k) ensures (key in m' <==> key in m) && (key in m ==> m'[key] == m[key]) {
      assert key !in extra;
    }
    match k
    case 0 => TranscriptReadsOwnKeys(m, m');
    case 1 => TerminalReadsOwnKeys(m, m');
    case 2 => SpeechStartedReadsOwnKeys(m, m');
    case 3 => UtteranceEndReadsOwnKeys(m, m');
    case 4 => TurnInfoReadsOwnKeys(m, m');
    case 5 => ConnectedReadsOwnKeys(m, m');
    case _ => ErrorReadsOwnKeys(m, m');
  }

  /** `m` and `m'` agree on the members in `keys`. */
  predicate AgreeOn(m: map<string, Json>, m': map<string, Json>, keys: set<string>) {
    forall key :: key in keys ==> (key in m' <==> key in m) && (key in m ==> m'[key] == m[key])
  }

  lemma TranscriptReadsOwnKeys(m: map<string, Json>, m': map<string, Json>)
    requires AgreeOn(m, m', VariantKeys(0))
    ensures DecodeTranscriptResponse(Object(m')) == DecodeTranscriptResponse(Object(m))
  {
    assert "type" in VariantKeys(0);
    assert "start" in VariantKeys(0);
    assert "duration" in VariantKeys(0);
    assert "is_final" in VariantKeys(0);
    assert "speech_final" in VariantKeys(0);
    assert "from_finalize" in VariantKeys(0);
    assert "channel" in VariantKeys(0);
    assert "metadata" in VariantKeys(0);
    assert "channel_index" in VariantKeys(0);
  }

  lemma TerminalReadsOwnKeys(m: map<string, Json>, m': map<string, Json>)
    requires AgreeOn(m, m', VariantKeys(1))
    ensures DecodeTerminalResponse(Object(m')) == DecodeTerminalResponse(Object(m))
  {
    assert "request_id" in VariantKeys(1);
    assert "created" in VariantKeys(1);
    assert "duration" in VariantKeys(1);
    assert "channels" in VariantKeys(1);
  }

  lemma SpeechStartedReadsOwnKeys(m: map<string, Json>, m': map<string, Json>)
    requires AgreeOn(m, m', VariantKeys(2))
    ensures DecodeSpeechStartedResponse(Object(m')) == DecodeSpeechStartedResponse(Object(m))
  {
    assert "type" in VariantKeys(2);
    assert "channel" in VariantKeys(2);
    assert "timestamp" in VariantKeys(2);
  }

  lemma UtteranceEndReadsOwnKeys(m: map<string, Json>, m': map<string, Json>)
    requires AgreeOn(m, m', VariantKeys(3))
    ensures DecodeUtteranceEndResponse(Object(m')) == DecodeUtteranceEndResponse(Object(m))
  {
    assert "type" in VariantKeys(3);
    assert "channel" in VariantKeys(3);
    assert "last_word_end" in VariantKeys(3);
  }

  lemma TurnInfoReadsOwnKeys(m: map<string, Json>, m': map<string, Json>)
    requires AgreeOn(m, m', VariantKeys(4))
    ensures DecodeTurnInfoResponse(Object(m')) == DecodeTurnInfoResponse(Object(m))
  {
    assert "type" in VariantKeys(4);
    assert "request_id" in VariantKeys(4);
    assert "event" in VariantKeys(4);
    assert "turn_index" in VariantKeys(4);
    assert "audio_window_start" in VariantKeys(4);
    assert "audio_window_end" in VariantKeys(4);
    assert "transcript" in VariantKeys(4);
    assert "words" in VariantKeys(4);
    assert "end_of_turn_confidence" in VariantKeys(4);
    assert "sequence_id" in VariantKeys(4);
  }

  lemma ConnectedReadsOwnKeys(m: map<string, Json>, m': map<string, Json>)
    requires AgreeOn(m, m', VariantKeys(5))
    ensures DecodeConnectedResponse(Object(m')) == DecodeConnectedResponse(Object(m))
  {
    assert "type" in VariantKeys(5);
    assert "request_id" in VariantKeys(5);
    assert "sequence_id" in VariantKeys(5);
  }

  lemma ErrorReadsOwnKeys(m: map<string, Json>, m': map<string, Json>)
    requires AgreeOn(m, m', VariantKeys(6))
    ensures DecodeErrorResponse(Object(m')) == DecodeErrorResponse(Object(m))
  {
    assert "type" in VariantKeys(6);
    assert "code" in VariantKeys(6);
    assert "description" in VariantKeys(6);
    assert "sequence_id" in VariantKeys(6);
  }

  /** The members read by at least one variant. */
  function AllKeys(): set<string> {
    VariantKeys(0) + VariantKeys(1) + VariantKeys(2) + VariantKeys(3) + VariantKeys(4) + VariantKeys(5) + VariantKeys(6)
  }

  lemma {:induction false} FirstMatchPointwise(decoders: seq<Json -> Result<StreamResponse>>, j: Json, j': Json)
    requires forall i :: 0 <= i < |decoders| ==> decoders[i](j') == decoders[i](j)
    ensures FirstMatch(decoders, j') == FirstMatch(decoders, j)
  {
    if decoders != [] {
      var tail := decoders[1..];
      assert forall i :: 0 <= i < |tail| ==> tail[i] == decoders[i + 1];
      FirstMatchPointwise(tail, j, j');
    }
  }

  /** Members no variant names never change how a frame decodes. */
  lemma FrameExtraKeysIgnored(m: map<string, Json>, extra: map<string, Json>)
    requires extra.Keys !! AllKeys()
    ensures Decode(Object(m + extra)) == Decode(Object(m))
  {
    forall i | 0 <= i < |Variants| ensures Variants[i](Object(m + extra)) == Variants[i](Object(m)) {
      UnnamedKeysIgnored(i, m, extra);
    }
    FirstMatchPointwise(Variants, Object(m), Object(m + extra));
  }

  // ---------------------------------------------------------------------------
  // Reading back what the serialiser writes

  /** Every variant value survives serialisation and untagged decoding: what
      the serialiser writes for one variant lacks a member that every earlier
      variant requires. */
  lemma RoundTrip(v: StreamResponse)
    ensures Decode(EncodeResponse(v)) == Ok(v)
  {
    VariantRoundTrip(v);
    DecodedAt(v.Index(), EncodeResponse(v), v);
  }

  /** The serialiser writes exactly the members the variant's decoder reads. */
  lemma EncodedKeys(v: StreamResponse)
    ensures EncodeResponse(v).fields.Keys == VariantKeys(v.Index())
  {
    match v
    case TranscriptResponse(_, _, _, _, _, _, _, _, _) =>
    case TerminalResponse(_, _, _, _) =>
    case SpeechStartedResponse(_, _, _) =>
    case UtteranceEndResponse(_, _, _) =>
    case TurnInfoResponse(_, _, _, _, _, _, _, _, _, _) =>
    case ConnectedResponse(_, _, _) =>
    case ErrorResponse(_, _, _, _) =>
  }

  /** The variant's own decoder reads back what the serialiser writes. */
  lemma VariantRoundTrip(v: StreamResponse)
    ensures Variants[v.Index()](EncodeResponse(v)) == Ok(v)
  {
    match v
    case TranscriptResponse(_, _, _, _, _, _, _, _, _) => TranscriptRoundTrip(v);
    case TerminalResponse(_, _, _, _) => TerminalRoundTrip(v);
    case SpeechStartedResponse(_, _, _) => SpeechStartedRoundTrip(v);
    case UtteranceEndResponse(_, _, _) => UtteranceEndRoundTrip(v);
    case TurnInfoResponse(_, _, _, _, _, _, _, _, _, _) => TurnInfoRoundTrip(v);
    case ConnectedResponse(_, _, _) => ConnectedRoundTrip(v);
    case ErrorResponse(_, _, _, _) => ErrorRoundTrip(v);
  }

  lemma TranscriptRoundTrip(v: StreamResponse)
    requires v.TranscriptResponse?
    ensures DecodeTranscriptResponse(EncodeResponse(v)) == Ok(v)
  {
    var m := EncodeResponse(v).fields;
    EncodedTranscriptMembers(v);
    TranscriptNestedMembers(v, m);
    TranscriptMembers(m, v);
  }

  lemma TranscriptNestedMembers(v: StreamResponse, m: map<string, Json>)
    requires v.TranscriptResponse?
    requires "channel" in m && m["channel"] == EncodeChannel(v.channel)
    requires "metadata" in m && m["metadata"] == EncodeMetadata(v.metadata)
    requires "channel_index" in m && m["channel_index"] == EncodeSeq(v.channelIndex, (x: int32) => EncodeInt(x as int))
    ensures RequiredField(m, "channel", DecodeChannel) == Ok(v.channel)
    ensures RequiredField(m, "metadata", DecodeMetadata) == Ok(v.metadata)
    ensures RequiredField(m, "channel_index", AsI32Seq) == Ok(v.channelIndex)
  {
    ChannelRoundTrip(v.channel);
    MetadataRoundTrip(v.metadata);
    SeqRoundTrip(v.channelIndex, (x: int32) => EncodeInt(x as int), AsI32);
  }

  lemma EncodedTranscriptMembers(v: StreamResponse)
    requires v.TranscriptResponse?
    ensures var m := EncodeResponse(v).fields;
      && "type" in m && m["type"] == Str(v.typeField)
      && "start" in m && m["start"] == EncodeF64(v.start)
      && "duration" in m && m["duration"] == EncodeF64(v.duration)
      && "is_final" in m && m["is_final"] == Bool(v.isFinal)
      && "speech_final" in m && m["speech_final"] == Bool(v.speechFinal)
      && "from_finalize" in m && m["from_finalize"] == Bool(v.fromFinalize)
      && "channel" in m && m["channel"] == EncodeChannel(v.channel)
      && "metadata" in m && m["metadata"] == EncodeMetadata(v.metadata)
      && "channel_index" in m && m["channel_index"] == EncodeSeq(v.channelIndex, (x: int32) => EncodeInt(x as int))
  {
    EncodedTranscriptScalars(v);
    EncodedTranscriptNested(v);
  }

  lemma EncodedTranscriptScalars(v: StreamResponse)
    requires v.TranscriptResponse?
    ensures var m := EncodeResponse(v).fields;
      && "type" in m && m["type"] == Str(v.typeField)
      && "start" in m && m["start"] == EncodeF64(v.start)
      && "duration" in m && m["duration"] == EncodeF64(v.duration)
      && "is_final" in m && m["is_final"] == Bool(v.isFinal)
      && "speech_final" in m && m["speech_final"] == Bool(v.speechFinal)
      && "from_finalize" in m && m["from_finalize"] == Bool(v.fromFinalize)
  {
    EncodedTranscriptTiming(v);
    EncodedTranscriptFlags(v);
  }

  lemma EncodedTranscriptTiming(v: StreamResponse)
    requires v.TranscriptResponse?
    ensures var m := EncodeResponse(v).fields;
      && "type" in m && m["type"] == Str(v.typeField)
      && "start" in m && m["start"] == EncodeF64(v.start)
      && "duration" in m && m["duration"] == EncodeF64(v.duration)
  {
  }

  lemma EncodedTranscriptFlags(v: StreamResponse)
    requires v.TranscriptResponse?
    ensures var m := EncodeResponse(v).fields;
      && "is_final" in m && m["is_final"] == Bool(v.isFinal)
      && "speech_final" in m && m["speech_final"] == Bool(v.speechFinal)
      && "from_finalize" in m && m["from_finalize"] == Bool(v.fromFinalize)
  {
  }

  lemma EncodedTranscriptNested(v: StreamResponse)
    requires v.TranscriptResponse?
    ensures var m := EncodeResponse(v).fields;
      && "channel" in m && m["channel"] == EncodeChannel(v.channel)
      && "metadata" in m && m["metadata"] == EncodeMetadata(v.metadata)
      && "channel_index" in m && m["channel_index"] == EncodeSeq(v.channelIndex, (x: int32) => EncodeInt(x as int))
  {
  }

  lemma TurnInfoRoundTrip(v: StreamResponse)
    requires v.TurnInfoResponse?
    ensures DecodeTurnInfoResponse(EncodeResponse(v)) == Ok(v)
  {
    var m := EncodeResponse(v).fields;
    EncodedTurnInfoMembers(v);
    TurnEventRoundTrip(v.event);
    if v.words.Some? {
      var ws := v.words.value;
      forall i | 0 <= i < |ws| ensures DecodeWord(EncodeWord(ws[i])) == Ok(ws[i]) {
        WordRoundTrip(ws[i]);
      }
      SeqRoundTrip(ws, EncodeWord, DecodeWord);
    }
    OptionalRoundTrip(m, "words", v.words, EncodeWords, DecodeWords);
    assert RequiredField(m, "event", DecodeTurnEvent) == Ok(v.event);
    TurnInfoMembers(m, v);
  }

  lemma EncodedTurnInfoMembers(v: StreamResponse)
    requires v.TurnInfoResponse?
    ensures var m := EncodeResponse(v).fields;
      && "type" in m && m["type"] == Str(v.typeField)
      && "request_id" in m && m["request_id"] == Str(v.requestId)
      && "event" in m && m["event"] == EncodeTurnEvent(v.event)
      && "turn_index" in m && m["turn_index"] == EncodeInt(v.turnIndex as int)
      && "audio_window_start" in m && m["audio_window_start"] == EncodeF64(v.audioWindowStart)
      && "audio_window_end" in m && m["audio_window_end"] == EncodeF64(v.audioWindowEnd)
      && "transcript" in m && m["transcript"] == Str(v.transcript)
      && "words" in m && m["words"] == EncodeOption(v.words, EncodeWords)
      && "end_of_turn_confidence" in m && m["end_of_turn_confidence"] == EncodeF64(v.endOfTurnConfidence)
      && "sequence_id" in m && m["sequence_id"] == EncodeInt(v.sequenceId as int)
  {
  }

  lemma TerminalRoundTrip(v: StreamResponse)
    requires v.TerminalResponse?
    ensures DecodeTerminalResponse(EncodeResponse(v)) == Ok(v)
  {
  }

  lemma SpeechStartedRoundTrip(v: StreamResponse)
    requires v.SpeechStartedResponse?
    ensures DecodeSpeechStartedResponse(EncodeResponse(v)) == Ok(v)
  {
    SeqRoundTrip(v.channelIds, (x: uint8) => EncodeInt(x as int), AsU8);
  }

  lemma UtteranceEndRoundTrip(v: StreamResponse)
    requires v.UtteranceEndResponse?
    ensures DecodeUtteranceEndResponse(EncodeResponse(v)) == Ok(v)
  {
    SeqRoundTrip(v.channelIds, (x: uint8) => EncodeInt(x as int), AsU8);
  }

  lemma ConnectedRoundTrip(v: StreamResponse)
    requires v.ConnectedResponse?
    ensures DecodeConnectedResponse(EncodeResponse(v)) == Ok(v)
  {
  }

  lemma ErrorRoundTrip(v: StreamResponse)
    requires v.ErrorResponse?
    ensures DecodeErrorResponse(EncodeResponse(v)) == Ok(v)
  {
  }

  /** What the serialiser writes for `v` fits no variant before `v`'s own. */
  lemma DecodedAt(k: nat, j: Json, v: StreamResponse)
    requires k < 7 && j == EncodeResponse(v) && v.Index() == k && Variants[k](j) == Ok(v)
    ensures Decode(j) == Ok(v)
  {
    forall i | 0 <= i < k ensures !Fits(i, j) {
      EarlierVariantMissesKey(i, v);
    }
    VariantDecoder(k, j);
    FirstFitWins(k, j);
  }

  /** Each variant requires a member that no later variant's encoding has. */
  lemma EarlierVariantMissesKey(i: nat, v: StreamResponse)
    requires i < v.Index()
    ensures !Fits(i, EncodeResponse(v))
  {
    var m := EncodeResponse(v).fields;
    match i
    case 0 => assert "start" !in m || "type" !in m;
    case 1 => assert "created" !in m;
    case 2 => assert "timestamp" !in m;
    case 3 => assert "last_word_end" !in m;
    case 4 => assert "event" !in m;
    case 5 => assert "request_id" !in m;
  }
}
