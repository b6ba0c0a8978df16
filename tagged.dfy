/** Discriminant dispatch: the decoder the frame schema evidently intends,
    which reads the frame's `type` member and tries only the variant that
    member names. */
module TaggedDecoding {
  import opened Json
  import opened Serde
  import opened StreamResponses
  import opened UntaggedDecoding

  /** The `type` value the service sends with the frames of the variant at
      position `k`; the terminal summary is not identified by one. */
  function TagOf(k: nat): Option<string>
    requires k < 7
  {
    if k == 0 then Some("Results")
    else if k == 1 then None
    else if k == 2 then Some("SpeechStarted")
    else if k == 3 then Some("UtteranceEnd")
    else if k == 4 then Some("TurnInfo")
    else if k == 5 then Some("Connected")
    else Some("Error")
  }

  /** The variant a discriminant names, if it names one. */
  function VariantOfTag(t: string): (r: Option<nat>)
    ensures r.Some? ==> r.value < 7 && TagOf(r.value) == Some(t)
    ensures r.None? ==> forall k :: 0 <= k < 7 ==> TagOf(k) != Some(t)
  {
    if t == "Results" then Some(0)
    else if t == "SpeechStarted" then Some(2)
    else if t == "UtteranceEnd" then Some(3)
    else if t == "TurnInfo" then Some(4)
    else if t == "Connected" then Some(5)
    else if t == "Error" then Some(6)
    else None
  }

  /** The frame's `type` string, when it is an object carrying one. */
  function TypeOf(j: Json): Option<string> {
    if j.Object? && "type" in j.fields && j.fields["type"].Str? then Some(j.fields["type"].s) else None
  }

  /** A frame naming a variant is decoded by that variant's decoder alone;
      any other frame may only be the terminal summary, and a frame naming
      no variant that is not one is reported as an unknown variant. */
  function DecodeTagged(j: Json): (r: Result<StreamResponse>)
    ensures var t := TypeOf(j);
      && (t.Some? && VariantOfTag(t.value).Some? ==>
            (r.Ok? <==> Fits(VariantOfTag(t.value).value, j)))
      && (t.None? || VariantOfTag(t.value).None? ==> (r.Ok? <==> FitsTerminal(j)))
      && (r.Err? && t.Some? && VariantOfTag(t.value).None? ==> r.error == UnknownVariant(t.value))
  {
    var t := TypeOf(j);
    if t.Some? && VariantOfTag(t.value).Some? then
      VariantDecoder(VariantOfTag(t.value).value, j);
      Variants[VariantOfTag(t.value).value](j)
    else
      match DecodeTerminalResponse(j)
      case Ok(v) => Ok(v)
      case Err(_) => Err(if t.Some? then UnknownVariant(t.value) else NoVariantMatched)
  }

  /** A variant decoder that stores `type` stores the frame's own string. */
  lemma StoredTypeIsFrameType(k: nat, j: Json)
    requires k < 7 && Variants[k](j).Ok? && Variants[k](j).value.HasTypeField()
    ensures TypeOf(j) == Some(Variants[k](j).value.typeField)
  {
    VariantDecoder(k, j);
  }

  /** Whatever the discriminant decoder yields is the variant that the
      frame's `type` names, and the terminal summary only for a frame whose
      `type` names none. */
  lemma TaggedMatchesDiscriminant(j: Json)
    requires DecodeTagged(j).Ok?
    ensures var v := DecodeTagged(j).value;
      && (v.HasTypeField() ==> TypeOf(j) == Some(v.typeField) && TagOf(v.Index()) == TypeOf(j))
      && (v.TerminalResponse? ==> TypeOf(j).None? || VariantOfTag(TypeOf(j).value).None?)
  {
    var t := TypeOf(j);
    if t.Some? && VariantOfTag(t.value).Some? {
      var k := VariantOfTag(t.value).value;
      VariantDecoder(k, j);
      StoredTypeIsFrameType(k, j);
    }
  }

  /** In particular a frame typed "TurnInfo" is never read as
      `ConnectedResponse`: it is a `TurnInfoResponse` or an error. */
  lemma TurnInfoTypeIsNeverConnected(j: Json)
    requires TypeOf(j) == Some("TurnInfo")
    ensures DecodeTagged(j).Ok? ==> DecodeTagged(j).value.TurnInfoResponse?
    ensures DecodeTagged(j).Ok? <==> FitsTurnInfo(j)
  {
    if DecodeTagged(j).Ok? {
      TaggedMatchesDiscriminant(j);
    }
  }

  /** Where the untagged decoder already picks the variant that the frame's
      `type` names, or the terminal summary for a frame naming none, the two
      decoders agree. */
  lemma TaggedAgreesWithUntagged(j: Json)
    requires Decode(j).Ok?
    requires var v := Decode(j).value;
      && (v.HasTypeField() ==> TagOf(v.Index()) == Some(v.typeField))
      && (v.TerminalResponse? ==> TypeOf(j).None? || VariantOfTag(TypeOf(j).value).None?)
    ensures DecodeTagged(j) == Decode(j)
  {
    DecodeIsFirstFit(j);
    var v := Decode(j).value;
    if v.HasTypeField() {
      TypeFieldIsVerbatim(j);
      assert VariantOfTag(v.typeField) == Some(v.Index());
    }
  }

  /** A value whose stored `type` is its variant's discriminant. */
  predicate WellTagged(v: StreamResponse) {
    v.HasTypeField() ==> TagOf(v.Index()) == Some(v.typeField)
  }

  /** The serialiser's output for a well-tagged value reads back through the
      discriminant decoder. */
  lemma TaggedRoundTrip(v: StreamResponse)
    requires WellTagged(v)
    ensures DecodeTagged(EncodeResponse(v)) == Ok(v)
  {
    var j := EncodeResponse(v);
    RoundTrip(v);
    TaggedAgreesWithUntagged(j);
  }
}
