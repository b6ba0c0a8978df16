/** The value types carried inside server frames — a transcribed word, the
    transcript alternatives of a channel, the model metadata and the
    conversational turn event — with the decoders and encoders their derived
    (de)serialisation amounts to. */
module Schema {
  import opened Json
  import opened Serde

  /** A transcribed word. `start` and `end` are optional because the
      conversational endpoint omits them. */
  datatype Word = Word(
    word: string,
    start: Option<real>,
    end: Option<real>,
    confidence: real,
    speaker: Option<int32>,
    punctuatedWord: Option<string>,
    language: Option<string>)

  datatype Alternatives = Alternatives(
    transcript: string,
    words: seq<Word>,
    confidence: real,
    languages: seq<string>)

  datatype Channel = Channel(alternatives: seq<Alternatives>)

  datatype ModelInfo = ModelInfo(name: string, version: string, arch: string)

  datatype Metadata = Metadata(requestId: string, modelInfo: ModelInfo, modelUuid: string)

  datatype TurnEvent = Update | StartOfTurn | EagerEndOfTurn | TurnResumed | EndOfTurn

  // ---------------------------------------------------------------------------
  // TurnEvent: serialised by the exact name of each variant

  function TurnEventName(e: TurnEvent): string {
    match e
    case Update => "Update"
    case StartOfTurn => "StartOfTurn"
    case EagerEndOfTurn => "EagerEndOfTurn"
    case TurnResumed => "TurnResumed"
    case EndOfTurn => "EndOfTurn"
  }

  /** The variant a name denotes; a name no variant carries is unknown. */
  function TurnEventFromName(s: string): (r: Result<TurnEvent>)
    ensures r.Ok? ==> TurnEventName(r.value) == s
    ensures r.Err? ==> r.error == UnknownVariant(s) && forall e :: TurnEventName(e) != s
  {
    if s == "Update" then Ok(Update)
    else if s == "StartOfTurn" then Ok(StartOfTurn)
    else if s == "EagerEndOfTurn" then Ok(EagerEndOfTurn)
    else if s == "TurnResumed" then Ok(TurnResumed)
    else if s == "EndOfTurn" then Ok(EndOfTurn)
    else Err(UnknownVariant(s))
  }

  lemma SingleKey(m: map<string, Json>, k: string, k': string)
    requires |m| == 1 && k in m && k' in m
    ensures k == k'
  {
    var rest := m.Keys - {k};
    assert |rest| == 0;
    assert k' !in rest;
  }

  /** The key of a one-member object. */
  function OnlyKey(m: map<string, Json>): (k: string)
    requires |m| == 1
    ensures k in m
  {
    assert exists k :: k in m by {
      var k0 :| k0 in m.Keys;
    }
    var k :| k in m;
    SingleKeyUnique(m, k);
    k
  }

  lemma SingleKeyUnique(m: map<string, Json>, k: string)
    requires |m| == 1 && k in m
    ensures forall k' :: k' in m ==> k' == k
  {
    forall k' | k' in m ensures k' == k { SingleKey(m, k, k'); }
  }

  /** A unit variant is read from its name as a string, or in the externally
      tagged form: an object with that name as its only key and `null` as
      its value. */
  function DecodeTurnEvent(j: Json): (r: Result<TurnEvent>)
    ensures r.Ok? <==> IsTurnEvent(j)
    ensures r.Ok? ==> j == Str(TurnEventName(r.value)) || j == Object(map[TurnEventName(r.value) := Null])
  {
    match j
    case Str(s) => TurnEventFromName(s)
    case Object(m) =>
      if |m| != 1 then Err(InvalidValue("map with a single key"))
      else
        var k := OnlyKey(m);
        var e :- TurnEventFromName(k);
        if m[k].Null? then
          assert m == map[k := Null] by { SingleKeyUnique(m, k); }
          Ok(e)
        else Err(InvalidType("unit variant"))
    case _ => Err(InvalidType("string or map"))
  }

  /** An event is written as the name that reads back as it. */
  function EncodeTurnEvent(e: TurnEvent): (j: Json)
    ensures j.Str? && TurnEventFromName(j.s) == Ok(e)
  {
    Str(TurnEventName(e))
  }

  /** Every variant survives a write and a read. */
  lemma TurnEventRoundTrip(e: TurnEvent)
    ensures DecodeTurnEvent(EncodeTurnEvent(e)) == Ok(e)
  {
  }

  /** The decoder accepts exactly the five names, each as its own variant. */
  lemma TurnEventNames(s: string)
    ensures TurnEventFromName(s).Ok? <==>
      s in {"Update", "StartOfTurn", "EagerEndOfTurn", "TurnResumed", "EndOfTurn"}
    ensures TurnEventFromName(s).Ok? ==> EncodeTurnEvent(TurnEventFromName(s).value) == Str(s)
  {
  }

  // ---------------------------------------------------------------------------
  // Acceptance: the objects each struct's derived decoder takes

  predicate IsWord(j: Json) {
    && j.Object?
    && HasRequired(j.fields, "word", IsString)
    && HasOptional(j.fields, "start", IsF64)
    && HasOptional(j.fields, "end", IsF64)
    && HasRequired(j.fields, "confidence", IsF64)
    && HasOptional(j.fields, "speaker", IsI32)
    && HasOptional(j.fields, "punctuated_word", IsString)
    && HasOptional(j.fields, "language", IsString)
  }

  predicate IsAlternatives(j: Json) {
    && j.Object?
    && HasRequired(j.fields, "transcript", IsString)
    && HasRequired(j.fields, "words", ArrayOf(IsWord))
    && HasRequired(j.fields, "confidence", IsF64)
    && HasDefaulted(j.fields, "languages", ArrayOf(IsString))
  }

  predicate IsChannel(j: Json) {
    j.Object? && HasRequired(j.fields, "alternatives", ArrayOf(IsAlternatives))
  }

  predicate IsModelInfo(j: Json) {
    && j.Object?
    && HasRequired(j.fields, "name", IsString)
    && HasRequired(j.fields, "version", IsString)
    && HasRequired(j.fields, "arch", IsString)
  }

  predicate IsMetadata(j: Json) {
    && j.Object?
    && HasRequired(j.fields, "request_id", IsString)
    && HasRequired(j.fields, "model_info", IsModelInfo)
    && HasRequired(j.fields, "model_uuid", IsString)
  }

  /** What the event field accepts: a known name, plain or externally tagged. */
  predicate IsTurnEvent(j: Json) {
    exists e :: j == Str(TurnEventName(e)) || j == Object(map[TurnEventName(e) := Null])
  }

  // ---------------------------------------------------------------------------
  // Decoders

  function DecodeWord(j: Json): (r: Result<Word>)
    ensures r.Ok? <==> IsWord(j)
    ensures r.Ok? ==> var m, w := j.fields, r.value;
      && StrAt(m, "word", w.word)
      && OptF64At(m, "start", w.start)
      && OptF64At(m, "end", w.end)
      && F64At(m, "confidence", w.confidence)
      && OptI32At(m, "speaker", w.speaker)
      && OptStrAt(m, "punctuated_word", w.punctuatedWord)
      && OptStrAt(m, "language", w.language)
  {
    var m :- AsObject(j);
    var word :- RequiredField(m, "word", AsString);
    var start :- OptionalField(m, "start", AsF64);
    var end :- OptionalField(m, "end", AsF64);
    var confidence :- RequiredField(m, "confidence", AsF64);
    var speaker :- OptionalField(m, "speaker", AsI32);
    var punctuatedWord :- OptionalField(m, "punctuated_word", AsString);
    var language :- OptionalField(m, "language", AsString);
    Ok(Word(word, start, end, confidence, speaker, punctuatedWord, language))
  }

  function DecodeWords(j: Json): Result<seq<Word>> { AsSeq(j, DecodeWord) }

  function EncodeWords(ws: seq<Word>): Json { EncodeSeq(ws, EncodeWord) }

  function DecodeAlternatives(j: Json): (r: Result<Alternatives>)
    ensures r.Ok? <==> IsAlternatives(j)
    ensures r.Ok? ==> var m, a := j.fields, r.value;
      && StrAt(m, "transcript", a.transcript)
      && SeqAt(m, "words", a.words, DecodeWord)
      && F64At(m, "confidence", a.confidence)
      && (if "languages" in m then SeqAt(m, "languages", a.languages, AsString) else a.languages == [])
  {
    var m :- AsObject(j);
    var transcript :- RequiredField(m, "transcript", AsString);
    var words :- RequiredField(m, "words", DecodeWords);
    var confidence :- RequiredField(m, "confidence", AsF64);
    var languages :- DefaultedField(m, "languages", AsStringSeq, []);
    Ok(Alternatives(transcript, words, confidence, languages))
  }

  function DecodeAlternativesSeq(j: Json): Result<seq<Alternatives>> { AsSeq(j, DecodeAlternatives) }

  function DecodeChannel(j: Json): (r: Result<Channel>)
    ensures r.Ok? <==> IsChannel(j)
    ensures r.Ok? ==> SeqAt(j.fields, "alternatives", r.value.alternatives, DecodeAlternatives)
  {
    var m :- AsObject(j);
    var alternatives :- RequiredField(m, "alternatives", DecodeAlternativesSeq);
    Ok(Channel(alternatives))
  }

  function DecodeModelInfo(j: Json): (r: Result<ModelInfo>)
    ensures r.Ok? <==> IsModelInfo(j)
    ensures r.Ok? ==>
      && StrAt(j.fields, "name", r.value.name)
      && StrAt(j.fields, "version", r.value.version)
      && StrAt(j.fields, "arch", r.value.arch)
  {
    var m :- AsObject(j);
    var name :- RequiredField(m, "name", AsString);
    var version :- RequiredField(m, "version", AsString);
    var arch :- RequiredField(m, "arch", AsString);
    Ok(ModelInfo(name, version, arch))
  }

  function DecodeMetadata(j: Json): (r: Result<Metadata>)
    ensures r.Ok? <==> IsMetadata(j)
    ensures r.Ok? ==> var m, d := j.fields, r.value;
      && StrAt(m, "request_id", d.requestId)
      && "model_info" in m && DecodeModelInfo(m["model_info"]) == Ok(d.modelInfo)
      && StrAt(m, "model_uuid", d.modelUuid)
  {
    var m :- AsObject(j);
    var requestId :- RequiredField(m, "request_id", AsString);
    var modelInfo :- RequiredField(m, "model_info", DecodeModelInfo);
    var modelUuid :- RequiredField(m, "model_uuid", AsString);
    Ok(Metadata(requestId, modelInfo, modelUuid))
  }

  // ---------------------------------------------------------------------------
  // Encoders: every field is written, `None` as `null`

  /** Every key is written, `None` as `null`, and each carries its field. */
  function EncodeWord(w: Word): (j: Json)
    ensures j.Object? && j.fields.Keys == {"word", "start", "end", "confidence", "speaker", "punctuated_word", "language"}
    ensures var m := j.fields;
      && StrAt(m, "word", w.word)
      && OptF64At(m, "start", w.start)
      && OptF64At(m, "end", w.end)
      && F64At(m, "confidence", w.confidence)
      && OptI32At(m, "speaker", w.speaker)
      && OptStrAt(m, "punctuated_word", w.punctuatedWord)
      && OptStrAt(m, "language", w.language)
  {
    Object(map[
      "word" := Str(w.word),
      "start" := EncodeOption(w.start, EncodeF64),
      "end" := EncodeOption(w.end, EncodeF64),
      "confidence" := EncodeF64(w.confidence),
      "speaker" := EncodeOption(w.speaker, (x: int32) => EncodeInt(x as int)),
      "punctuated_word" := EncodeOption(w.punctuatedWord, (s: string) => Str(s)),
      "language" := EncodeOption(w.language, (s: string) => Str(s))])
  }

  function EncodeAlternatives(a: Alternatives): (j: Json)
    ensures j.Object? && j.fields.Keys == {"transcript", "words", "confidence", "languages"}
    ensures var m := j.fields;
      && StrAt(m, "transcript", a.transcript)
      && EncodedSeqAt(m, "words", a.words, EncodeWord)
      && F64At(m, "confidence", a.confidence)
      && EncodedSeqAt(m, "languages", a.languages, (s: string) => Str(s))
  {
    Object(map[
      "transcript" := Str(a.transcript),
      "words" := EncodeSeq(a.words, EncodeWord),
      "confidence" := EncodeF64(a.confidence),
      "languages" := EncodeSeq(a.languages, (s: string) => Str(s))])
  }

  function EncodeChannel(c: Channel): (j: Json)
    ensures j.Object? && j.fields.Keys == {"alternatives"}
    ensures EncodedSeqAt(j.fields, "alternatives", c.alternatives, EncodeAlternatives)
  {
    Object(map["alternatives" := EncodeSeq(c.alternatives, EncodeAlternatives)])
  }

  function EncodeModelInfo(i: ModelInfo): (j: Json)
    ensures j.Object? && j.fields.Keys == {"name", "version", "arch"}
    ensures StrAt(j.fields, "name", i.name) && StrAt(j.fields, "version", i.version) && StrAt(j.fields, "arch", i.arch)
  {
    Object(map["name" := Str(i.name), "version" := Str(i.version), "arch" := Str(i.arch)])
  }

  function EncodeMetadata(d: Metadata): (j: Json)
    ensures j.Object? && j.fields.Keys == {"request_id", "model_info", "model_uuid"}
    ensures var m := j.fields;
      && StrAt(m, "request_id", d.requestId)
      && "model_info" in m && m["model_info"] == EncodeModelInfo(d.modelInfo)
      && StrAt(m, "model_uuid", d.modelUuid)
  {
    Object(map[
      "request_id" := Str(d.requestId),
      "model_info" := EncodeModelInfo(d.modelInfo),
      "model_uuid" := Str(d.modelUuid)])
  }

  // ---------------------------------------------------------------------------
  // Round trips

  lemma WordRoundTrip(w: Word)
    ensures DecodeWord(EncodeWord(w)) == Ok(w)
  {
  }

  lemma AlternativesRoundTrip(a: Alternatives)
    ensures DecodeAlternatives(EncodeAlternatives(a)) == Ok(a)
  {
    forall i | 0 <= i < |a.words| ensures DecodeWord(EncodeWord(a.words[i])) == Ok(a.words[i]) {
      WordRoundTrip(a.words[i]);
    }
    SeqRoundTrip(a.words, EncodeWord, DecodeWord);
    SeqRoundTrip(a.languages, (s: string) => Str(s), AsString);
  }

  lemma ChannelRoundTrip(c: Channel)
    ensures DecodeChannel(EncodeChannel(c)) == Ok(c)
  {
    forall i | 0 <= i < |c.alternatives|
      ensures DecodeAlternatives(EncodeAlternatives(c.alternatives[i])) == Ok(c.alternatives[i])
    {
      AlternativesRoundTrip(c.alternatives[i]);
    }
    SeqRoundTrip(c.alternatives, EncodeAlternatives, DecodeAlternatives);
  }

  lemma MetadataRoundTrip(d: Metadata)
    ensures DecodeMetadata(EncodeMetadata(d)) == Ok(d)
  {
  }

  // ---------------------------------------------------------------------------
  // Defaults and optional fields

  /** A word carrying only `word` and `confidence` decodes, with every
      optional field `None`. */
  lemma WordWithoutOptionalFields(m: map<string, Json>)
    requires HasRequired(m, "word", IsString) && HasRequired(m, "confidence", IsF64)
    requires forall k :: k in m ==> k == "word" || k == "confidence"
    ensures DecodeWord(Object(m)) == Ok(Word(m["word"].s, None, None, NumberValue(m["confidence"].n), None, None, None))
  {
    assert "start" !in m && "end" !in m && "speaker" !in m;
    assert "punctuated_word" !in m && "language" !in m;
  }

  /** An absent `languages` key defaults to the empty sequence; the other
      three fields are still required. */
  lemma AlternativesLanguagesDefault(m: map<string, Json>)
    requires "languages" !in m
    ensures DecodeAlternatives(Object(m)).Ok? <==>
      HasRequired(m, "transcript", IsString) && HasRequired(m, "words", ArrayOf(IsWord)) && HasRequired(m, "confidence", IsF64)
    ensures DecodeAlternatives(Object(m)).Ok? ==> DecodeAlternatives(Object(m)).value.languages == []
  {
  }
}
