# Deepgram stream responses, modelled in Dafny

The Deepgram Rust SDK receives JSON frames over a websocket: interim and
final transcripts, speech-started and utterance-end notices, conversational
turn events, a connection acknowledgement, errors, and a terminal summary.
`src/common/stream_response.rs` declares the message schema (`Word`,
`Alternatives`, `Channel`, `ModelInfo`, `Metadata`, the five-valued
`TurnEvent`) and the seven-variant `StreamResponse`. Both decoding and
encoding are derived by serde. `StreamResponse` is `untagged`: the decoder
tries the variants in declaration order and keeps the first whose fields
the frame supplies.

This project models that decoder and encoder over an abstract JSON value,
and proves what they do:

- `json.dfy` — the JSON value: null, booleans, numbers (integer or
  fractional literal), strings, arrays, and objects as maps.
- `serde.dfy` — what serde's derived code does for each Rust field type:
  strings, booleans, `f64` (any number), `u8`/`i32`/`u32`/`u64` (integer
  literals in range only), `Vec`, and the three field kinds. A required
  field that is missing is an error. An `Option` field that is missing or
  `null` is `None`. A `#[serde(default)]` field that is missing takes its
  default.
- `schema.dfy` — the nested structs and `TurnEvent`, their decoders and
  encoders, and their round trips.
- `stream_response.dfy` — `StreamResponse`, one decoder per variant, the
  first-match decoder `Decode`, and the encoder. The encoder writes each
  variant's own fields with no variant name, and writes `None` as `null`.
- `untagged.dfy` — what the first-match decoder does. It picks the first
  variant it fits. It ignores keys no variant names. It stores the `type`
  string without comparing it to anything. It reads back whatever the
  encoder writes. A frame that fits the TurnInfo shape and has no `channel`
  or `created` member is never a `ConnectedResponse`. An `ErrorResponse` frame that carries a
  string `request_id` can never come out as an `ErrorResponse`.
- `scenarios.dfy` — the frames of the file's unit tests (lines 258–437),
  decoded by the model. Two further inputs are the model's own and appear
  in no test: a word with only some of its optional fields, and a TurnInfo
  frame whose event is the unknown name "Paused".
- `tagged.dfy` — a decoder that dispatches on the `type` member. It is the
  corrected half of the finding below. The rest of the model keeps to the
  code as written.

The code reads `type` as a plain string and never compares it with the
variant: it tries the shapes in order, and the model does the same. Six of
the seven shapes need `type` to be present and a string. A decoder in which a known `type` picks the variant is
modelled only on the side, by `TaggedDecoding.DecodeTagged`.

## Model

| member | source | states |
|---|---|---|
| Serde.AsString | src/common/stream_response.rs:13 | a `String` field accepts exactly the JSON strings, and holds the string |
| Serde.AsBool | src/common/stream_response.rs:136-142 | a `bool` field accepts exactly the JSON booleans, and holds the boolean |
| Serde.AsF64 | src/common/stream_response.rs:22 | an `f64` field accepts every JSON number, an integer literal included, and holds the real it denotes |
| Serde.AsI32 | src/common/stream_response.rs:25 | an `i32` field accepts exactly the integer literals in [-2^31, 2^31); the value is the literal |
| Serde.AsU32 | src/common/stream_response.rs:204 | a `u32` field accepts exactly the integer literals in [0, 2^32); the value is the literal |
| Serde.AsU64 | src/common/stream_response.rs:222 | a `u64` field accepts exactly the integer literals in [0, 2^64); the value is the literal |
| Serde.AsU8 | src/common/stream_response.rs:174 | a `u8` element accepts exactly the integer literals in [0, 256) |
| Serde.SeqOf | src/common/stream_response.rs:45 | a `Vec` decodes exactly when every element does, giving one decoded element per array element, in order |
| Serde.RequiredField | src/common/stream_response.rs:13 | a plain field that is missing is reported by name; a present one decodes as its type does |
| Serde.OptionalField | src/common/stream_response.rs:16 | an `Option` field that is missing or `null` is `None`; any other value must decode, and gives `Some` of it |
| Serde.DefaultedField | src/common/stream_response.rs:51-52 | a `#[serde(default)]` field that is missing takes the default; a present value, `null` included, must decode |
| Serde.SeqRoundTrip | src/common/stream_response.rs:45 | a sequence written by the encoder decodes back to itself when each element does |
| Serde.OptionalRoundTrip | src/common/stream_response.rs:216 | an `Option` field written as its value or `null` decodes back to the same option |
| Schema.TurnEventFromName | src/common/stream_response.rs:100-116 | a successful name lookup gives the event of that name; a failure is `UnknownVariant(name)` and no event has that name |
| Schema.DecodeTurnEvent | src/common/stream_response.rs:100-116 | an event decodes exactly from its name as a string, or from a one-key object `{name: null}` |
| Schema.EncodeTurnEvent | src/common/stream_response.rs:100-116 | an event is written as a string that the name lookup maps back to it |
| Schema.TurnEventRoundTrip | src/common/stream_response.rs:100-116 | every event encodes to its name and decodes back to itself |
| Schema.TurnEventNames | src/common/stream_response.rs:357-386 | a string decodes as an event exactly when it is one of the five names, and the event encodes back to that string |
| Schema.DecodeWord | src/common/stream_response.rs:11-32 | a word decodes exactly when `word` is a string, `confidence` a number, and each optional field is absent, null or well-typed; each decoded field holds its member's value, and an optional one is `None` exactly when its member is absent or null |
| Schema.EncodeWord | src/common/stream_response.rs:11-32 | all seven members are written, each holding its field, `None` as `null` |
| Schema.WordWithoutOptionalFields | src/common/stream_response.rs:389-405 | an object with only `word` and `confidence` decodes, with all five optional fields `None` |
| Scenarios.WordWithSomeOptionalFields | src/common/stream_response.rs:11-32 | a word with `start` but no `end` and an integer `confidence` decodes with `start` `Some(0.5)`, `end` `None` and confidence 1.0 |
| Schema.WordRoundTrip | src/common/stream_response.rs:11-32 | every word survives encoding and decoding |
| Schema.DecodeAlternatives | src/common/stream_response.rs:40-53 | alternatives decode exactly when `transcript`, `words` and `confidence` are well-typed and `languages`, if present, is a string array; the result holds those members' values, each word decoded in order, and `[]` for a missing `languages` |
| Schema.EncodeAlternatives | src/common/stream_response.rs:40-53 | the four members are written, words and languages element by element |
| Schema.AlternativesLanguagesDefault | src/common/stream_response.rs:50-52 | with no `languages` key the other three fields decide success, and `languages` is empty |
| Schema.AlternativesRoundTrip | src/common/stream_response.rs:40-53 | every alternatives value survives encoding and decoding |
| Schema.DecodeChannel | src/common/stream_response.rs:63-66 | a channel decodes exactly when `alternatives` is an array of well-formed alternatives, and holds them decoded in order |
| Schema.EncodeChannel | src/common/stream_response.rs:63-66 | only `alternatives` is written, element by element |
| Schema.ChannelRoundTrip | src/common/stream_response.rs:63-66 | every channel survives encoding and decoding |
| Schema.DecodeModelInfo | src/common/stream_response.rs:70-79 | model info decodes exactly when `name`, `version` and `arch` are strings, and holds those strings |
| Schema.EncodeModelInfo | src/common/stream_response.rs:70-79 | exactly the three string members are written |
| Schema.DecodeMetadata | src/common/stream_response.rs:87-96 | metadata decodes exactly when `request_id` and `model_uuid` are strings and `model_info` is well-formed, and holds those values |
| Schema.EncodeMetadata | src/common/stream_response.rs:87-96 | exactly the three members are written, `model_info` as a nested object |
| Schema.MetadataRoundTrip | src/common/stream_response.rs:87-96 | every metadata value survives encoding and decoding |
| StreamResponses.DecodeTranscriptResponse | src/common/stream_response.rs:124-152 | accepts exactly the objects supplying the nine transcript fields with their types, and yields a transcript response; each field holds its member's value |
| StreamResponses.DecodeTerminalResponse | src/common/stream_response.rs:154-166 | accepts exactly the objects supplying `request_id`, `created`, `duration` and a `u32` `channels`, and yields a terminal response; each field holds its member's value |
| StreamResponses.DecodeSpeechStartedResponse | src/common/stream_response.rs:168-178 | accepts exactly the objects supplying `type`, a `u8` array `channel` and `timestamp`; each field holds its member's value |
| StreamResponses.DecodeUtteranceEndResponse | src/common/stream_response.rs:180-190 | accepts exactly the objects supplying `type`, a `u8` array `channel` and `last_word_end`; each field holds its member's value |
| StreamResponses.DecodeTurnInfoResponse | src/common/stream_response.rs:192-223 | accepts exactly the objects supplying the nine required TurnInfo fields, with `words` absent, null or an array of words; each field holds its member's value, and `words` is `None` exactly when the member is absent or null |
| StreamResponses.DecodeConnectedResponse | src/common/stream_response.rs:225-235 | accepts exactly the objects supplying `type`, `request_id` and a `u64` `sequence_id`; each field holds its member's value |
| StreamResponses.DecodeErrorResponse | src/common/stream_response.rs:237-250 | accepts exactly the objects supplying `type`, `code`, `description` and a `u64` `sequence_id`; each field holds its member's value |
| StreamResponses.FirstMatch | src/common/stream_response.rs:120 | trying decoders in order fails exactly when all fail, and then reports no variant matched |
| UntaggedDecoding.FirstMatchCorrect | src/common/stream_response.rs:120 | when some decoder succeeds, the first that does gives the result |
| StreamResponses.Decode | src/common/stream_response.rs:119-251 | a frame fails to decode exactly when it fits none of the seven shapes, and the error is that no variant matched |
| UntaggedDecoding.VariantDecoder | src/common/stream_response.rs:124-250 | the `k`-th decoder succeeds exactly on the frames fitting the `k`-th shape, and yields the `k`-th variant |
| UntaggedDecoding.DecodeIsFirstFit | src/common/stream_response.rs:119-251 | a frame decodes as the first variant in declaration order that it fits, and fails only when it fits none |
| UntaggedDecoding.FirstFitWins | src/common/stream_response.rs:119-251 | a frame fitting shape `k` and no earlier one decodes as variant `k` |
| UntaggedDecoding.TurnInfoFieldsIncludeConnected | src/common/stream_response.rs:192-235 | every frame fitting the TurnInfo shape also fits the Connected shape |
| UntaggedDecoding.TurnInfoFrameDecodesAsTurnInfo | src/common/stream_response.rs:192-223 | a frame fitting TurnInfo, with no `channel` or `created`, decodes as `TurnInfoResponse` |
| UntaggedDecoding.TurnInfoValuesPreserved | src/common/stream_response.rs:192-223 | TurnInfo decoding keeps transcript, identifiers, index and event; `words` is `None` exactly when absent or null, and `Some([])` for `[]` |
| UntaggedDecoding.MinimalConnectedFrame | src/common/stream_response.rs:225-250 | a frame of exactly `type`, `request_id` and `sequence_id` decodes as `ConnectedResponse` with the three values verbatim |
| UntaggedDecoding.ErrorFrameWithRequestIdIsNotError | src/common/stream_response.rs:225-250 | an error frame that also has a string `request_id` decodes, but never as `ErrorResponse` |
| UntaggedDecoding.TypeFieldIsVerbatim | src/common/stream_response.rs:126-127 | a decoded variant that stores `type` holds the frame's `type` string |
| UntaggedDecoding.TypeValueNotCompared | src/common/stream_response.rs:119-251 | replacing the `type` string changes neither whether the frame decodes nor the variant and values, only the stored `type` |
| UntaggedDecoding.UnnamedKeysIgnored | src/common/stream_response.rs:124-250 | adding keys a variant does not name leaves that variant's decoder result unchanged |
| UntaggedDecoding.FrameExtraKeysIgnored | src/common/stream_response.rs:119-251 | adding keys no variant names leaves the decoded frame unchanged |
| StreamResponses.EncodeResponse | src/common/stream_response.rs:119-251 | a response is written as an object holding its stored `type` verbatim, with an absent `words` as `null` and no variant name |
| UntaggedDecoding.EncodedKeys | src/common/stream_response.rs:119-251 | the serialiser writes exactly the members that the variant's decoder reads |
| UntaggedDecoding.VariantRoundTrip | src/common/stream_response.rs:124-250 | each variant's decoder reads back that variant's encoding |
| UntaggedDecoding.RoundTrip | src/common/stream_response.rs:119-251 | every response value survives encoding and untagged decoding |
| Scenarios.ConnectedFrameDecodes | src/common/stream_response.rs:259-276 | the test's Connected frame decodes as `ConnectedResponse("Connected", "test-123", 0)` |
| Scenarios.KnownEventFrameDecodes | src/common/stream_response.rs:279-354 | a TurnInfo frame with a known event and well-formed words decodes as `TurnInfoResponse`, keeping its type, request id, event, transcript, sequence id and each word |
| Scenarios.KnownEventFrameTiming | src/common/stream_response.rs:279-354 | the same frame keeps its turn index, audio window start and end, and end-of-turn confidence |
| Scenarios.StartOfTurnFrame | src/common/stream_response.rs:279-302 | the StartOfTurn test frame decodes with its request id, transcript, sequence id and event |
| Scenarios.UpdateFrame | src/common/stream_response.rs:407-437 | the Update frame (the same at lines 306 and 410) decodes as `TurnInfoResponse`, not `ConnectedResponse`, with type "TurnInfo", its request id, transcript, sequence id and event |
| Scenarios.LongerTranscriptFrame | src/common/stream_response.rs:330-354 | the longer Update frame decodes with type "TurnInfo", its request id, whole transcript and sequence id, and each of the twelve words with its word and confidence |
| Scenarios.AllTurnEventFrames | src/common/stream_response.rs:356-386 | for each of the five events the test frame decodes as `TurnInfoResponse` with that event and `Some([])` words |
| Scenarios.WordWithoutTimestamps | src/common/stream_response.rs:389-405 | both test words decode, the short one with `start` and `end` `None` |
| Scenarios.UnknownEventDecodesAsConnected | src/common/stream_response.rs:192-235 | a TurnInfo frame of the model's own with the unknown event name "Paused" decodes as `ConnectedResponse("TurnInfo", …)`, losing the transcript |
| Scenarios.UnknownEventRejectedByTag | src/common/stream_response.rs:192-235 | dispatching on `type`, the same frame is an unknown-variant error |
| Scenarios.KnownEventFrameTagged | src/common/stream_response.rs:356-386 | for the five known events both decoders agree on the test frame |
| TaggedDecoding.VariantOfTag | src/common/stream_response.rs:119-251 | a discriminant names a variant only when that variant's tag equals it |
| TaggedDecoding.DecodeTagged | src/common/stream_response.rs:407-437 | a frame naming a variant succeeds exactly when it fits that variant's shape; otherwise exactly when it fits the terminal shape, and an unknown tag is reported by name |
| TaggedDecoding.TaggedMatchesDiscriminant | src/common/stream_response.rs:407-437 | what the tag decoder yields is the variant the frame's `type` names, or the terminal summary for a frame naming none |
| TaggedDecoding.TurnInfoTypeIsNeverConnected | src/common/stream_response.rs:407-437 | a frame typed "TurnInfo" decodes exactly when it fits TurnInfo, and then as `TurnInfoResponse` |
| TaggedDecoding.TaggedAgreesWithUntagged | src/common/stream_response.rs:119-251 | where the untagged decoder picks the variant the frame's `type` names, the tag decoder gives the same result |
| TaggedDecoding.TaggedRoundTrip | src/common/stream_response.rs:119-251 | every value whose stored `type` is its own tag survives encoding and tag decoding |

## Left out

- JSON text parsing is done by serde_json, which is not part of this model. Decoding starts from an already parsed JSON value.
- Repeated keys in one object cannot occur, because objects are maps. Under `untagged`, serde keeps the frame's members as a list, so a repeated key fails only the variants that name it, and decoding falls through to later ones. For example, a TurnInfo frame with `transcript` twice decodes as `ConnectedResponse`. The model does not capture this.
- serde also accepts a struct written as a positional JSON array. Only the object form is modelled.
- `f64` fields are carried as exact reals. Rounding of decimal literals, NaN and infinities are not modelled. Numbers are only carried, never computed on.
- When several fields of one shape are wrong, serde reports the error of the first one in the frame's key order. The model reports the first in declaration order. The untagged decoder discards the individual errors either way, so `Decode` is unaffected.
- `#[non_exhaustive]` only affects matching in other crates at compile time, so it has no runtime behaviour to model.
- `examples/transcription/websocket/flux_stream.rs`, the example client, is I/O and presentation. It runs an ffmpeg subprocess and a concurrent socket loop, reads environment variables, and formats coloured console output (`get_confidence_color`, `format_turn_event`).
- The session handle, request builder, endpoints, transport, and finalize and keep-alive lifecycle are not part of this model. None of that code is in the modelled file.
- Confidence ranges, `sequence_id` and `turn_index` monotonicity, and `audio_window_start <= audio_window_end` are not checked by the code. The model does not claim them.
- The code has no way to surface an unknown discriminant as an ignorable event. `TaggedDecoding.DecodeTagged` reports one as an `UnknownVariant` error instead.

## Findings

| source | as written | input that shows it | evidently intended | confidence | as-written member | corrected member |
|---|---|---|---|---|---|---|
| src/common/stream_response.rs:119-251 | the variants are tried in order, and `type` is read as a plain string and never compared with the variant. A TurnInfo frame that the TurnInfo shape rejects for one field other than `type`, `request_id` or `sequence_id` still fits the Connected shape, so it decodes as `ConnectedResponse`. The transcript and event are dropped silently. | `{"type":"TurnInfo","request_id":"test-123","event":"Paused","turn_index":0,"audio_window_start":0.0,"audio_window_end":1.0,"transcript":"test","words":[],"end_of_turn_confidence":0.5,"sequence_id":1}` | a frame typed "TurnInfo" is a `TurnInfoResponse` or a decode error. The test at lines 407–437 calls the Connected outcome a bug. | medium; not executed | Scenarios.UnknownEventDecodesAsConnected | TaggedDecoding.DecodeTagged |
