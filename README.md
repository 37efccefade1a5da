# openai-go chat and audio clients in Dafny

This project models the two request-building clients of the `openai-go` library and proves their behaviour:

- **`chat`** covers the chat completions client and the constructors of multi-modal message content. The most substantial of these is `NewContentFromImage`. It turns image bytes into a `data:<media type>;base64,<data>` URL, using the standard base64 encoding of RFC 4648 (section 4) and the `data:` URL form of RFC 2397 (section 3).
- **`audio`** covers the transcription (speech to text) and speech (text to speech) client.

Both clients delegate to a session object, which does the HTTP transport.

Modules, one per file:

- `Wrappers` (`wrappers.dfy`) holds `Option`, and Go's `error` as `Nil | Err(message)`.
- `Base64` (`base64.dfy`) is a bit-level model of the standard padded base64 alphabet.
  - The functional encoder `Encode` is defined through groups of three bytes and four sextets.
  - A strict decoder `Decode` is its proved inverse in both directions.
  - `EncodeInto` is the in-place encoder loop over a `dst` buffer, which `NewContentFromImage` calls. It is proved to write exactly `Encode(src)`.
- `DataUrl` (`dataurl.dfy`) builds base64 `data:` URLs and parses them back.
- `Url` (`url.dfy`) models `url.Values` as a map from keys to value lists, with `Set`.
- `Openai` (`openai.dfy`) models the session as a class whose `MakeRequest`, `Upload` and `Download` append a record of each call to a ghost log. Each call returns an arbitrary reply and error. This makes the following provable:
  - no call was made on an error path;
  - exactly which endpoint, parameters and fields were handed over;
  - how the session's error reaches the caller.
- `Chat` (`chat.dfy`) and `Audio` (`audio.dfy`) are the two packages.
  - Client and parameter structs that the code updates through pointers are classes.
  - Response and message records are datatypes.

Order of operations matters in both clients:

- Chat fills in the client's default model before it rejects a streaming request, so the caller's parameters change even on that error path.
- Audio checks the audio format or the voice first, so the caller's parameters are untouched on those error paths.

## Model

| member | source | states |
|---|---|---|
| Base64.EncodeInto | chat/chat.go:131-132 | fills the `EncodedLen(len(d))`-long buffer with exactly `Encode(src)`, group by group, then the padded remainder |
| Base64.Sextets | chat/chat.go:131 | the symbol sequence has length `(n+2)/3*4`, Go's `EncodedLen` |
| Base64.EncodeLength | chat/chat.go:131 | an encoding has `4*((len(d)+2)/3)` characters, a multiple of four |
| Base64.EncodeShape | chat/chat.go:128-132 | every character is from the standard alphabet (`A-Z a-z 0-9 + /`), except `=` padding in the last two positions; two `=` after a final single byte, one after a final pair, none otherwise |
| Base64.SextetsPadding | chat/chat.go:128-132 | padding symbols occur only at the end, and their number is fixed by `len(d) % 3` |
| Base64.EncodeGroups | chat/chat.go:128-132 | each group of three bytes becomes one four-character quantum; a trailing pair or single byte becomes a quantum padded with one or two `=` |
| Base64.CharValueInverse | chat/chat.go:128-132 | the alphabet is a bijection between 6-bit values and its 64 characters |
| Base64.BytesSextetsBytes | chat/chat.go:128-132 | the four sextets of three bytes give back those bytes |
| Base64.SextetsBytesSextets | chat/chat.go:128-132 | four sextets give back themselves through the bytes they encode; a padded quantum's zero trailing bits are kept |
| Base64.SymbolsRender | chat/chat.go:128-132 | reading back rendered symbols gives the same symbols |
| Base64.DecodeSextets | chat/chat.go:128-132 | decoding the symbols of `d` gives `d` |
| Base64.SextetsOfDecoded | chat/chat.go:128-132 | symbols that decode to `d` are exactly the symbols of `d` |
| Base64.DecodeEncode | chat/chat.go:128-132 | the encoded image data decodes back to the original bytes |
| Base64.EncodeDecode | chat/chat.go:128-132 | any string that decodes to `d` is the encoding of `d` |
| Base64.DecodeIffEncode | chat/chat.go:128-132 | `Decode(s) == Some(d)` holds exactly when `s == Encode(d)` |
| DataUrl.MediaTypeOfIff | chat/chat.go:135-137 | the part before the comma names media type `m` exactly when it is `data:` + `m` + `;base64` |
| DataUrl.LastCommaOfBuild | chat/chat.go:134-138 | the comma written after `;base64` is the last comma of the URL, since base64 text has none |
| DataUrl.ParseBuild | chat/chat.go:134-141 | the built URL `data:` + media type + `;base64,` + encoding parses back to the media type and the data |
| DataUrl.BuildParse | chat/chat.go:134-141 | any URL that parses to a media type and data is the one built from them |
| DataUrl.ParseIffBuild | chat/chat.go:134-141 | a URL parses to `(mediaType, d)` exactly when it is built from them |
| Chat.NewContentFromImage | chat/chat.go:119-145 | fails with `mime_type must be image/*` and the zero `Content` exactly when the media type does not start with `image/`; otherwise the type is `image_url`, text and detail are empty, the URL is `data:` + media type + `;base64,` + standard base64 of the data, and it parses back to both |
| Chat.NewContentFromImageURL | chat/chat.go:147-154 | the type is `image_url`, the URL is the given one, and text and detail are empty: a well-formed image part |
| Chat.NewContentFromText | chat/chat.go:156-161 | the type is `text`, the text is the given one, and the image URL is empty: a well-formed text part |
| Chat.PartOfIffContentOf | chat/chat.go:112-116 | a `Content` is a well-formed text or image part exactly when it is that part's record; the `type` tag selects which fields carry the part |
| Chat.Client.constructor | chat/chat.go:29-38 | an empty model becomes `gpt-3.5-turbo`, any other is kept; the endpoint is the default chat completions URL |
| Chat.Client.CreateCompletion | chat/chat.go:163-176 | an empty `p.Model` becomes the client's model, even when streaming is then refused; `Stream` gives `use StreamingClient instead` with no session call; otherwise there is exactly one request, to the client's endpoint with the defaulted `p`, whose error is returned unchanged, with a response exactly when there is no error |
| Chat.Client.CreateMMCompletion | chat/chat.go:178-192 | the same as `CreateCompletion`, for multi-modal parameters on the same endpoint |
| Audio.Client.constructor | audio/audio.go:32-42 | an empty model becomes `whisper-1`, any other is kept; both endpoints are their default URLs |
| Audio.TranscriptionForm | audio/audio.go:66-73 | the form maps `model` to the model, `language` only when it is non-empty and `prompt` only when it is non-empty, each to one value, and has no other key |
| Audio.TranscriptionFormKeys | audio/audio.go:66-73 | `language` and `prompt` are present exactly when non-empty, and every field has a single value |
| Audio.Client.CreateTranscription | audio/audio.go:59-76 | without an audio format it fails with `audio format is required`, leaves `p` and the session untouched; otherwise an empty model becomes the client's, and there is exactly one upload to the transcription endpoint with the format and the form fields; a response is returned together with the upload's error, whatever it is |
| Audio.WrapDownloadError | audio/audio.go:94-99 | no error stays no error; a download error becomes `failed to download speech: ` followed by the cause's message |
| Audio.WrapDownloadErrorInjective | audio/audio.go:94-99 | the cause's message can be read back from the wrapped message, so distinct causes give distinct wrapped messages |
| Audio.Client.CreateSpeech | audio/audio.go:86-100 | without a voice it fails with `voice is required` and leaves `p` and the session untouched; otherwise an empty model becomes the client's, and there is exactly one download to the speech endpoint with the defaulted parameters, whose error is reported wrapped |

## Left out

- The session's transport (`openai.Session`: HTTP requests, authentication, JSON decoding of replies) is not part of this model. The session is an object that logs each call and returns an arbitrary reply and error.
- JSON and multipart serialisation, including `omitempty` tags, is not modelled. The session receives the parameters as a value: `Chat.CompletionRequest`, `Chat.MMCompletionRequest`, `Audio.SpeechRequest`, or the form map.
- The floating-point parameters (`TopP`, `Temperature`, `PresencePenalty`, `FrequencyPenalty`) are dropped; no code reads them.
- `Functions` and `Message.FunctionCall` are dropped. Their types `Function` and `FunctionCall` are declared in another file of package `chat` that is not modelled, and nothing in the modelled code reads these fields.
- `Usage` in the completion response is dropped; its type is defined outside the two packages.
- Errors are modelled by their `Error()` text only. Error identity and wrapping are not captured: `errors.Is` and `errors.As`, and the difference between `%v` and `%w`. In Go, `CreateSpeech`'s error carries the cause's text but does not wrap the cause, while the chat methods return the session's error value itself.
- Go strings are byte strings; here they are sequences of Unicode characters. This makes no difference to the modelled checks, because `image/`, the data URL markers and the base64 alphabet are all ASCII.
- A nil `p` or a nil session makes every client method panic in Go. Dafny's references are non-null, so the model has no such case.
- `context.Context` is not modelled. It only reaches the session.
- The audio `io.Reader` of a transcription and the `io.Writer` of a speech download are not modelled. Only the session touches them.
- Go's `[]*Message` and `[]*MMMessage` hold message pointers. Here they are sequences of values, so aliasing between a caller's messages and the request is not captured.
- Go's `CreatedAt int64` is an unbounded `int`. Nothing does arithmetic on it.
- The example programs `examples/audio/main.go` and `examples/vision/main.go` are not modelled. They only read the environment and files and print results.
