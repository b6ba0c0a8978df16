/** The server frames of a streaming session and their untagged decoder: each
    variant has its own field set, and a frame becomes the first variant, in
    declaration order, whose fields it supplies. The `type` member is read as
    a plain string field of the variants that declare it and is never compared
    with the variant's name. */
module StreamResponses {
  import opened Json
  import opened Serde
  import opened Schema

  datatype StreamResponse =
    | TranscriptResponse(
        typeField: string,
        start: real,
        duration: real,
        isFinal: bool,
        speechFinal: bool,
        fromFinalize: bool,
        channel: Channel,
        metadata: Metadata,
        channelIndex: seq<int32>)
    | TerminalResponse(
        requestId: string,
        created: string,
        duration: real,
        channels: uint32)
    | SpeechStartedResponse(
        typeField: string,
        channelIds: seq<uint8>,
        timestamp: real)
    | UtteranceEndResponse(
        typeField: string,
        channelIds: seq<uint8>,
        lastWordEnd: real)
    | TurnInfoResponse(
        typeField: string,
        requestId: string,
        event: TurnEvent,
        turnIndex: uint32,
        audioWindowStart: real,
        audioWindowEnd: real,
        transcript: string,
        words: Option<seq<Word>>,
        endOfTurnConfidence: real,
        sequenceId: uint64)
    | ConnectedResponse(
        typeField: string,
        requestId: string,
        sequenceId: uint64)
    | ErrorResponse(
        typeField: string,
        code: string,
        description: string,
        sequenceId: uint64)
  {
    /** Position of the variant in the declaration, which is the order the
        untagged decoder tries them in. */
    function Index(): (k: nat)
      ensures k < 7
    {
      match this
      case TranscriptResponse(_, _, _, _, _, _, _, _, _) => 0
      case TerminalResponse(_, _, _, _) => 1
      case SpeechStartedResponse(_, _, _) => 2
      case UtteranceEndResponse(_, _, _) => 3
      case TurnInfoResponse(_, _, _, _, _, _, _, _, _, _) => 4
      case ConnectedResponse(_, _, _) => 5
      case ErrorResponse(_, _, _, _) => 6
    }

    /** Every variant but the terminal summary stores the `type` member. */
    predicate HasTypeField() { !TerminalResponse? }
  }

  // ---------------------------------------------------------------------------
  // Acceptance: the objects each variant's decoder takes

  predicate FitsTranscript(j: Json) {
    && j.Object?
    && HasRequired(j.fields, "type", IsString)
    && HasRequired(j.fields, "start", IsF64)
    && HasRequired(j.fields, "duration", IsF64)
    && HasRequired(j.fields, "is_final", IsBool)
    && HasRequired(j.fields, "speech_final", IsBool)
    && HasRequired(j.fields, "from_finalize", IsBool)
    && HasRequired(j.fields, "channel", IsChannel)
    && HasRequired(j.fields, "metadata", IsMetadata)
    && HasRequired(j.fields, "channel_index", ArrayOf(IsI32))
  }

  predicate FitsTerminal(j: Json) {
    && j.Object?
    && HasRequired(j.fields, "request_id", IsString)
    && HasRequired(j.fields, "created", IsString)
    && HasRequired(j.fields, "duration", IsF64)
    && HasRequired(j.fields, "channels", IsU32)
  }

  predicate FitsSpeechStarted(j: Json) {
    && j.Object?
    && HasRequired(j.fields, "type", IsString)
    && HasRequired(j.fields, "channel", ArrayOf(IsU8))
    && HasRequired(j.fields, "timestamp", IsF64)
  }

  predicate FitsUtteranceEnd(j: Json) {
    && j.Object?
    && HasRequired(j.fields, "type", IsString)
    && HasRequired(j.fields, "channel", ArrayOf(IsU8))
    && HasRequired(j.fields, "last_word_end", IsF64)
  }

  predicate FitsTurnInfo(j: Json) {
    && j.Object?
    && HasRequired(j.fields, "type", IsString)
    && HasRequired(j.fields, "request_id", IsString)
    && HasRequired(j.fields, "event", IsTurnEvent)
    && HasRequired(j.fields, "turn_index", IsU32)
    && HasRequired(j.fields, "audio_window_start", IsF64)
    && HasRequired(j.fields, "audio_window_end", IsF64)
    && HasRequired(j.fields, "transcript", IsString)
    && HasOptional(j.fields, "words", ArrayOf(IsWord))
    && HasRequired(j.fields, "end_of_turn_confidence", IsF64)
    && HasRequired(j.fields, "sequence_id", IsU64)
  }

  predicate FitsConnected(j: Json) {
    && j.Object?
    && HasRequired(j.fields, "type", IsString)
    && HasRequired(j.fields, "request_id", IsString)
    && HasRequired(j.fields, "sequence_id", IsU64)
  }

  predicate FitsError(j: Json) {
    && j.Object?
    && HasRequired(j.fields, "type", IsString)
    && HasRequired(j.fields, "code", IsString)
    && HasRequired(j.fields, "description", IsString)
    && HasRequired(j.fields, "sequence_id", IsU64)
  }

  /** Whether the frame supplies the fields of the variant at position `k`. */
  predicate Fits(k: nat, j: Json)
    requires k < 7
  {
    match k
    case 0 => FitsTranscript(j)
    case 1 => FitsTerminal(j)
    case 2 => FitsSpeechStarted(j)
    case 3 => FitsUtteranceEnd(j)
    case 4 => FitsTurnInfo(j)
    case 5 => FitsConnected(j)
    case _ => FitsError(j)
  }

  /** The top-level members the variant at position `k` reads and the
      serialiser writes. */
  function VariantKeys(k: nat): set<string>
    requires k < 7
  {
    match k
    case 0 => {"type", "start", "duration", "is_final", "speech_final", "from_finalize", "channel", "metadata", "channel_index"}
    case 1 => {"request_id", "created", "duration", "channels"}
    case 2 => {"type", "channel", "timestamp"}
    case 3 => {"type", "channel", "last_word_end"}
    case 4 => {"type", "request_id", "event", "turn_index", "audio_window_start", "audio_window_end",
               "transcript", "words", "end_of_turn_confidence", "sequence_id"}
    case 5 => {"type", "request_id", "sequence_id"}
    case _ => {"type", "code", "description", "sequence_id"}
  }

  // ---------------------------------------------------------------------------
  // One decoder per variant

  function DecodeTranscriptResponse(j: Json): (r: Result<StreamResponse>)
    ensures r.Ok? <==> FitsTranscript(j)
    ensures r.Ok? ==> r.value.TranscriptResponse?
    ensures r.Ok? ==> var m, v := j.fields, r.value;
      && StrAt(m, "type", v.typeField)
      && F64At(m, "start", v.start)
      && F64At(m, "duration", v.duration)
      && BoolAt(m, "is_final", v.isFinal)
      && BoolAt(m, "speech_final", v.speechFinal)
      && BoolAt(m, "from_finalize", v.fromFinalize)
      && "channel" in m && DecodeChannel(m["channel"]) == Ok(v.channel)
      && "metadata" in m && DecodeMetadata(m["metadata"]) == Ok(v.metadata)
      && SeqAt(m, "channel_index", v.channelIndex, AsI32)
  {
    var m :- AsObject(j);
    var typeField :- RequiredField(m, "type", AsString);
    var start :- RequiredField(m, "start", AsF64);
    var duration :- RequiredField(m, "duration", AsF64);
    var isFinal :- RequiredField(m, "is_final", AsBool);
    var speechFinal :- RequiredField(m, "speech_final", AsBool);
    var fromFinalize :- RequiredField(m, "from_finalize", AsBool);
    var channel :- RequiredField(m, "channel", DecodeChannel);
    var metadata :- RequiredField(m, "metadata", DecodeMetadata);
    var channelIndex :- RequiredField(m, "channel_index", AsI32Seq);
    Ok(TranscriptResponse(typeField, start, duration, isFinal, speechFinal, fromFinalize, channel, metadata, channelIndex))
  }

  function DecodeTerminalResponse(j: Json): (r: Result<StreamResponse>)
    ensures r.Ok? <==> FitsTerminal(j)
    ensures r.Ok? ==> r.value.TerminalResponse?
    ensures r.Ok? ==> var m, v := j.fields, r.value;
      && StrAt(m, "request_id", v.requestId)
      && StrAt(m, "created", v.created)
      && F64At(m, "duration", v.duration)
      && IntAt(m, "channels", v.channels as int)
  {
    var m :- AsObject(j);
    var requestId :- RequiredField(m, "request_id", AsString);
    var created :- RequiredField(m, "created", AsString);
    var duration :- RequiredField(m, "duration", AsF64);
    var channels :- RequiredField(m, "channels", AsU32);
    Ok(TerminalResponse(requestId, created, duration, channels))
  }

  function DecodeSpeechStartedResponse(j: Json): (r: Result<StreamResponse>)
    ensures r.Ok? <==> FitsSpeechStarted(j)
    ensures r.Ok? ==> r.value.SpeechStartedResponse?
    ensures r.Ok? ==> var m, v := j.fields, r.value;
      && StrAt(m, "type", v.typeField)
      && SeqAt(m, "channel", v.channelIds, AsU8)
      && F64At(m, "timestamp", v.timestamp)
  {
    var m :- AsObject(j);
    var typeField :- RequiredField(m, "type", AsString);
    var channelIds :- RequiredField(m, "channel", AsU8Seq);
    var timestamp :- RequiredField(m, "timestamp", AsF64);
    Ok(SpeechStartedResponse(typeField, channelIds, timestamp))
  }

  function DecodeUtteranceEndResponse(j: Json): (r: Result<StreamResponse>)
    ensures r.Ok? <==> FitsUtteranceEnd(j)
    ensures r.Ok? ==> r.value.UtteranceEndResponse?
    ensures r.Ok? ==> var m, v := j.fields, r.value;
      && StrAt(m, "type", v.typeField)
      && SeqAt(m, "channel", v.channelIds, AsU8)
      && F64At(m, "last_word_end", v.lastWordEnd)
  {
    var m :- AsObject(j);
    var typeField :- RequiredField(m, "type", AsString);
    var channelIds :- RequiredField(m, "channel", AsU8Seq);
    var lastWordEnd :- RequiredField(m, "last_word_end", AsF64);
    Ok(UtteranceEndResponse(typeField, channelIds, lastWordEnd))
  }

  function DecodeTurnInfoResponse(j: Json): (r: Result<StreamResponse>)
    ensures r.Ok? <==> FitsTurnInfo(j)
    ensures r.Ok? ==> r.value.TurnInfoResponse?
    ensures r.Ok? ==> var m, v := j.fields, r.value;
      && StrAt(m, "type", v.typeField)
      && StrAt(m, "request_id", v.requestId)
      && "event" in m && DecodeTurnEvent(m["event"]) == Ok(v.event)
      && IntAt(m, "turn_index", v.turnIndex as int)
      && F64At(m, "audio_window_start", v.audioWindowStart)
      && F64At(m, "audio_window_end", v.audioWindowEnd)
      && StrAt(m, "transcript", v.transcript)
      && (if v.words.Some? then SeqAt(m, "words", v.words.value, DecodeWord) else Absent(m, "words"))
      && F64At(m, "end_of_turn_confidence", v.endOfTurnConfidence)
      && IntAt(m, "sequence_id", v.sequenceId as int)
  {
    var m :- AsObject(j);
    var typeField :- RequiredField(m, "type", AsString);
    var requestId :- RequiredField(m, "request_id", AsString);
    var event :- RequiredField(m, "event", DecodeTurnEvent);
    var turnIndex :- RequiredField(m, "turn_index", AsU32);
    var audioWindowStart :- RequiredField(m, "audio_window_start", AsF64);
    var audioWindowEnd :- RequiredField(m, "audio_window_end", AsF64);
    var transcript :- RequiredField(m, "transcript", AsString);
    var words :- OptionalField(m, "words", DecodeWords);
    var endOfTurnConfidence :- RequiredField(m, "end_of_turn_confidence", AsF64);
    var sequenceId :- RequiredField(m, "sequence_id", AsU64);
    Ok(TurnInfoResponse(typeField, requestId, event, turnIndex, audioWindowStart, audioWindowEnd,
                        transcript, words, endOfTurnConfidence, sequenceId))
  }

  function DecodeConnectedResponse(j: Json): (r: Result<StreamResponse>)
    ensures r.Ok? <==> FitsConnected(j)
    ensures r.Ok? ==> r.value.ConnectedResponse?
    ensures r.Ok? ==> var m, v := j.fields, r.value;
      && StrAt(m, "type", v.typeField)
      && StrAt(m, "request_id", v.requestId)
      && IntAt(m, "sequence_id", v.sequenceId as int)
  {
    var m :- AsObject(j);
    var typeField :- RequiredField(m, "type", AsString);
    var requestId :- RequiredField(m, "request_id", AsString);
    var sequenceId :- RequiredField(m, "sequence_id", AsU64);
    Ok(ConnectedResponse(typeField, requestId, sequenceId))
  }

  function DecodeErrorResponse(j: Json): (r: Result<StreamResponse>)
    ensures r.Ok? <==> FitsError(j)
    ensures r.Ok? ==> r.value.ErrorResponse?
    ensures r.Ok? ==> var m, v := j.fields, r.value;
      && StrAt(m, "type", v.typeField)
      && StrAt(m, "code", v.code)
      && StrAt(m, "description", v.description)
      && IntAt(m, "sequence_id", v.sequenceId as int)
  {
    var m :- AsObject(j);
    var typeField :- RequiredField(m, "type", AsString);
    var code :- RequiredField(m, "code", AsString);
    var description :- RequiredField(m, "description", AsString);
    var sequenceId :- RequiredField(m, "sequence_id", AsU64);
    Ok(ErrorResponse(typeField, code, description, sequenceId))
  }

  // ---------------------------------------------------------------------------
  // The untagged decoder

  /** The variant decoders in declaration order. */
  const Variants: seq<Json -> Result<StreamResponse>> :=
    [DecodeTranscriptResponse, DecodeTerminalResponse, DecodeSpeechStartedResponse, DecodeUtteranceEndResponse,
     DecodeTurnInfoResponse, DecodeConnectedResponse, DecodeErrorResponse]

  /** `k` is the first position whose decoder accepts `j`. */
  predicate IsFirstMatch(decoders: seq<Json -> Result<StreamResponse>>, j: Json, k: nat) {
    && k < |decoders|
    && decoders[k](j).Ok?
    && forall i :: 0 <= i < k ==> decoders[i](j).Err?
  }

  /** Tries each decoder in turn and returns the first success; when none
      succeeds the individual errors are discarded. */
  function FirstMatch(decoders: seq<Json -> Result<StreamResponse>>, j: Json): (r: Result<StreamResponse>)
    ensures r.Err? <==> forall i :: 0 <= i < |decoders| ==> decoders[i](j).Err?
    ensures r.Err? ==> r.error == NoVariantMatched
  {
    if decoders == [] then Err(NoVariantMatched)
    else
      var r := decoders[0](j);
      assert forall i :: 1 <= i < |decoders| ==> decoders[i] == decoders[1..][i - 1];
      if r.Ok? then r else FirstMatch(decoders[1..], j)
  }

  /** The untagged decoder: it fails exactly when the frame fits none of the
      seven shapes, and then reports no variant matched. */
  function Decode(j: Json): (r: Result<StreamResponse>)
    ensures r.Err? <==> forall k :: 0 <= k < 7 ==> !Fits(k, j)
    ensures r.Err? ==> r.error == NoVariantMatched
  {
    forall k | 0 <= k < 7 ensures Variants[k](j).Ok? <==> Fits(k, j) {
    }
    FirstMatch(Variants, j)
  }

  // ---------------------------------------------------------------------------
  // The derived serialiser: the variant's own fields only, no variant name

  /** Writes an object with the stored `type` verbatim and an absent
      `words` as `null`; `EncodedKeys` says which members it has. */
  function EncodeResponse(v: StreamResponse): (j: Json)
    ensures j.Object?
    ensures v.HasTypeField() ==> StrAt(j.fields, "type", v.typeField)
    ensures v.TurnInfoResponse? ==> "words" in j.fields && (v.words.None? <==> j.fields["words"] == Null)
  {
    match v
    case TranscriptResponse(t, start, duration, isFinal, speechFinal, fromFinalize, channel, metadata, channelIndex) =>
      Object(map[
        "type" := Str(t),
        "start" := EncodeF64(start),
        "duration" := EncodeF64(duration),
        "is_final" := Bool(isFinal),
        "speech_final" := Bool(speechFinal),
        "from_finalize" := Bool(fromFinalize),
        "channel" := EncodeChannel(channel),
        "metadata" := EncodeMetadata(metadata),
        "channel_index" := EncodeSeq(channelIndex, (x: int32) => EncodeInt(x as int))])
    case TerminalResponse(requestId, created, duration, channels) =>
      Object(map[
        "request_id" := Str(requestId),
        "created" := Str(created),
        "duration" := EncodeF64(duration),
        "channels" := EncodeInt(channels as int)])
    case SpeechStartedResponse(t, channelIds, timestamp) =>
      Object(map[
        "type" := Str(t),
        "channel" := EncodeSeq(channelIds, (x: uint8) => EncodeInt(x as int)),
        "timestamp" := EncodeF64(timestamp)])
    case UtteranceEndResponse(t, channelIds, lastWordEnd) =>
      Object(map[
        "type" := Str(t),
        "channel" := EncodeSeq(channelIds, (x: uint8) => EncodeInt(x as int)),
        "last_word_end" := EncodeF64(lastWordEnd)])
    case TurnInfoResponse(t, requestId, event, turnIndex, audioWindowStart, audioWindowEnd,
                          transcript, words, endOfTurnConfidence, sequenceId) =>
      Object(map[
        "type" := Str(t),
        "request_id" := Str(requestId),
        "event" := EncodeTurnEvent(event),
        "turn_index" := EncodeInt(turnIndex as int),
        "audio_window_start" := EncodeF64(audioWindowStart),
        "audio_window_end" := EncodeF64(audioWindowEnd),
        "transcript" := Str(transcript),
        "words" := EncodeOption(words, EncodeWords),
        "end_of_turn_confidence" := EncodeF64(endOfTurnConfidence),
        "sequence_id" := EncodeInt(sequenceId as int)])
    case ConnectedResponse(t, requestId, sequenceId) =>
      Object(map[
        "type" := Str(t),
        "request_id" := Str(requestId),
        "sequence_id" := EncodeInt(sequenceId as int)])
    case ErrorResponse(t, code, description, sequenceId) =>
      Object(map[
        "type" := Str(t),
        "code" := Str(code),
        "description" := Str(description),
        "sequence_id" := EncodeInt(sequenceId as int)])
  }
}
