/**
 * The audio package: a client for the transcription (speech to text) and speech
 * (text to speech) endpoints.
 */
module Audio {
  import opened Wrappers
  import Url
  import Openai

  const DefaultModel := "whisper-1"
  const DefaultCreateTranscriptionEndpoint := "https://api.openai.com/v1/audio/transcriptions"
  const DefaultCreateSpeechEndpoint := "https://api.openai.com/v1/audio/speech"

  const ErrAudioFormat := "audio format is required"
  const ErrVoice := "voice is required"
  /** The text `CreateSpeech` puts in front of a download error. */
  const DownloadFailure := "failed to download speech: "

  datatype TranscriptionResponse = TranscriptionResponse(text: string)

  /** The value of `CreateSpeechParams` the session serialises. */
  datatype SpeechRequest = SpeechRequest(model: string, input: string, voice: string, responseFormat: string, speed: int)

  /** `CreateTranscriptionParams`, passed by pointer; the client fills in its model. */
  class TranscriptionParams {
    var model: string
    var language: string
    /** The file type of the audio, such as "mp3" or "wav". */
    var audioFormat: string
    var prompt: string

    constructor (model: string, language: string, audioFormat: string, prompt: string)
      ensures this.model == model && this.language == language
      ensures this.audioFormat == audioFormat && this.prompt == prompt
    {
      this.model, this.language, this.audioFormat, this.prompt := model, language, audioFormat, prompt;
    }
  }

  /** `CreateSpeechParams`, passed by pointer; the client fills in its model. */
  class SpeechParams {
    var model: string
    var input: string
    var voice: string
    var responseFormat: string
    var speed: int

    constructor (model: string, input: string, voice: string)
      ensures this.model == model && this.input == input && this.voice == voice
      ensures responseFormat == "" && speed == 0
    {
      this.model, this.input, this.voice := model, input, voice;
      responseFormat, speed := "", 0;
    }

    function Request(): SpeechRequest
      reads this
    {
      SpeechRequest(model, input, voice, responseFormat, speed)
    }
  }

  /**
   * The form fields of a transcription upload: always the model, and the language and
   * the prompt only when they are given, each with exactly one value.
   */
  predicate IsTranscriptionForm(f: Url.Values, model: string, language: string, prompt: string)
  {
    && f.Keys == {"model"} + (if language != "" then {"language"} else {}) + (if prompt != "" then {"prompt"} else {})
    && f["model"] == [model]
    && (language != "" ==> f["language"] == [language])
    && (prompt != "" ==> f["prompt"] == [prompt])
  }

  /** The form fields `CreateTranscription` builds, one `Set` at a time. */
  method TranscriptionForm(model: string, language: string, prompt: string) returns (params: Url.Values)
    ensures IsTranscriptionForm(params, model, language, prompt)
  {
    params := map[];
    params := Url.Set(params, "model", model);
    if language != "" {
      params := Url.Set(params, "language", language);
    }
    if prompt != "" {
      params := Url.Set(params, "prompt", prompt);
    }
  }

  /** The form never has more than the three known fields, and an empty optional one is absent. */
  lemma TranscriptionFormKeys(f: Url.Values, model: string, language: string, prompt: string)
    requires IsTranscriptionForm(f, model, language, prompt)
    ensures "model" in f
    ensures "language" in f <==> language != ""
    ensures "prompt" in f <==> prompt != ""
    ensures forall k | k in f :: k in {"model", "language", "prompt"} && |f[k]| == 1
  {
  }

  /**
   * The error `CreateSpeech` reports for a download error `cause`: none when there is
   * none, else the cause's message behind a fixed prefix.
   */
  function WrapDownloadError(cause: Error): (r: Error)
    ensures r.Nil? <==> cause.Nil?
    ensures r.Err? ==> DownloadFailure <= r.message && r.message[|DownloadFailure|..] == cause.message
  {
    match cause
    case Nil => Nil
    case Err(m) => Err(DownloadFailure + m)
  }

  /** The prefix identifies a wrapped error and the cause can be read back: wrapping is injective. */
  lemma WrapDownloadErrorInjective(a: Error, b: Error)
    requires WrapDownloadError(a) == WrapDownloadError(b)
    ensures a == b
  {
    if a.Err? {
      assert WrapDownloadError(a).message[|DownloadFailure|..] == a.message;
    }
  }

  class Client {
    const session: Openai.Session<SpeechRequest, TranscriptionResponse>
    const model: string
    /** `CreateTranscriptionEndpoint` and `CreateSpeechEndpoint`: callers may override them before use. */
    var createTranscriptionEndpoint: string
    var createSpeechEndpoint: string

    /** The client always has a model to fall back on. */
    ghost predicate Valid()
      reads this
    {
      model != ""
    }

    /** `NewClient`: an empty model selects the default one. */
    constructor (session: Openai.Session<SpeechRequest, TranscriptionResponse>, model: string)
      ensures this.session == session
      ensures this.model == (if model == "" then DefaultModel else model)
      ensures createTranscriptionEndpoint == DefaultCreateTranscriptionEndpoint
      ensures createSpeechEndpoint == DefaultCreateSpeechEndpoint
      ensures Valid()
    {
      this.session := session;
      this.model := if model == "" then DefaultModel else model;
      createTranscriptionEndpoint := DefaultCreateTranscriptionEndpoint;
      createSpeechEndpoint := DefaultCreateSpeechEndpoint;
    }

    /**
     * `CreateTranscription`: refuses a request without an audio format before touching
     * anything; otherwise fills in the client's model when the caller gave none and
     * uploads once. The response record is returned even beside an upload error.
     */
    method CreateTranscription(p: TranscriptionParams) returns (resp: Option<TranscriptionResponse>, err: Error)
      modifies p`model, session
      ensures old(p.audioFormat) == "" ==>
        err == Err(ErrAudioFormat) && resp == None && p.model == old(p.model) && session.log == old(session.log)
      ensures p.audioFormat != "" ==>
        && p.model == (if old(p.model) == "" then model else old(p.model))
        && |session.log| == |old(session.log)| + 1 && session.log[..|old(session.log)|] == old(session.log)
        && var call := session.log[|old(session.log)|];
           && call.UploadCall? && call.endpoint == createTranscriptionEndpoint && call.format == p.audioFormat
           && IsTranscriptionForm(call.fields, p.model, p.language, p.prompt)
           && err == call.err && resp == Some(call.reply)
      ensures Valid() && p.audioFormat != "" ==> p.model != ""
    {
      if p.audioFormat == "" {
        return None, Err(ErrAudioFormat);
      }
      if p.model == "" {
        p.model := model;
      }
      var params := TranscriptionForm(p.model, p.language, p.prompt);
      var r;
      r, err := session.Upload(createTranscriptionEndpoint, p.audioFormat, params);
      return Some(r), err;
    }

    /**
     * `CreateSpeech`: refuses a request without a voice before touching anything;
     * otherwise fills in the client's model when the caller gave none and downloads
     * once, reporting a download error behind `DownloadFailure`.
     */
    method CreateSpeech(p: SpeechParams) returns (err: Error)
      modifies p`model, session
      ensures old(p.voice) == "" ==>
        err == Err(ErrVoice) && p.model == old(p.model) && session.log == old(session.log)
      ensures p.voice != "" ==>
        && p.model == (if old(p.model) == "" then model else old(p.model))
        && |session.log| == |old(session.log)| + 1 && session.log[..|old(session.log)|] == old(session.log)
        && var call := session.log[|old(session.log)|];
           && call.DownloadCall? && call.endpoint == createSpeechEndpoint && call.body == p.Request()
           && err == WrapDownloadError(call.err)
      ensures Valid() && p.voice != "" ==> p.model != ""
    {
      if p.voice == "" {
        return Err(ErrVoice);
      }
      if p.model == "" {
        p.model := model;
      }
      var cause := session.Download(createSpeechEndpoint, p.Request());
      if cause.Err? {
        return Err(DownloadFailure + cause.message);
      }
      return Nil;
    }
  }
}
