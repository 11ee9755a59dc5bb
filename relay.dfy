/**
 * The relay server: the process-wide API key and generative model, the
 * administrative `/set-api-key` and `/api-status` endpoints, and the
 * `audio_message` / `text_message` socket handlers.
 *
 * The SDK is an oracle. Constructing the client or the model either succeeds
 * or throws (`InitOutcome`), and `generateContent` is a function parameter
 * from the model and the prompt to a `Reply`. Each socket handler is one
 * atomic step that returns the single event it emits.
 */
module Relay {

  datatype Option<T> = None | Some(value: T)

  /** JavaScript truthiness of an optional string: present and non-empty. */
  predicate Truthy(s: Option<string>)
  {
    s.Some? && s.value != ""
  }

  /** A generative model, bound to the API key its client was built with. */
  datatype ModelHandle = ModelHandle(key: string)

  /** How the client constructor and `getGenerativeModel` in initializeAI go. */
  datatype InitOutcome =
    | ClientThrows   // `new GoogleGenerativeAI(apiKey)` throws
    | ModelThrows    // the client is built, `getGenerativeModel` throws
    | Constructed    // both succeed

  /** The module-level state: GEMINI_API_KEY, genAI (as the key it was built with) and model. */
  datatype RelayState = RelayState(apiKey: Option<string>, genAI: Option<string>, model: Option<ModelHandle>)

  /** initializeAI: returns whether it succeeded; it never throws. */
  function Init(s: RelayState, key: string, o: InitOutcome): (res: (RelayState, bool))
    ensures res.1 <==> o == Constructed
    ensures res.1 ==> res.0.model == Some(ModelHandle(key)) && res.0.genAI == Some(key)
    ensures !res.1 ==> res.0.model == s.model
    ensures o == ClientThrows ==> res.0 == s
    ensures res.0.apiKey == s.apiKey
  {
    match o
    case ClientThrows => (s, false)
    case ModelThrows => (s.(genAI := Some(key)), false)
    case Constructed => (s.(genAI := Some(key), model := Some(ModelHandle(key))), true)
  }

  /** Server start: the key comes from the environment and a truthy key is used to initialise. */
  function Startup(env: Option<string>, o: InitOutcome): (s: RelayState)
    ensures s.apiKey == env
    ensures s.model.Some? <==> Truthy(env) && o == Constructed
    ensures s.model.Some? ==> s.model == Some(ModelHandle(env.value)) && s.genAI == env
    ensures s.genAI.Some? <==> Truthy(env) && o != ClientThrows
    ensures s.genAI.Some? ==> s.genAI == env
  {
    var s0 := RelayState(env, None, None);
    if Truthy(env) then Init(s0, env.value, o).0 else s0
  }

  datatype Body =
    | Ack(success: bool, message: string)   // `{success, message}`
    | Failure(error: string)                // `{error}`

  datatype HttpResponse = HttpResponse(status: nat, body: Body)

  const KeyRequired: string := "API key is required"
  const KeyAccepted: string := "API key set successfully"
  const InitFailed: string := "Failed to initialize AI with provided key"

  /** `POST /set-api-key` with the body's `apiKey` field. */
  function SetKey(s: RelayState, apiKey: Option<string>, o: InitOutcome): (res: (RelayState, HttpResponse))
    ensures !Truthy(apiKey) ==> res == (s, HttpResponse(400, Failure(KeyRequired)))
    ensures Truthy(apiKey) ==> res.0.apiKey == apiKey
    ensures Truthy(apiKey) ==> res.0 == Init(s.(apiKey := apiKey), apiKey.value, o).0
    ensures Truthy(apiKey) && o == Constructed ==> res.1 == HttpResponse(200, Ack(true, KeyAccepted))
    ensures Truthy(apiKey) && o != Constructed ==> res.1 == HttpResponse(500, Failure(InitFailed))
  {
    if !Truthy(apiKey) then (s, HttpResponse(400, Failure(KeyRequired)))
    else
      var (s', ok) := Init(s.(apiKey := apiKey), apiKey.value, o);
      if ok then (s', HttpResponse(200, Ack(true, KeyAccepted)))
      else (s', HttpResponse(500, Failure(InitFailed)))
  }

  datatype StatusReport = StatusReport(configured: bool, message: string, server: string)

  /** `GET /api-status`: a configured relay always reports its key as configured. */
  function ApiStatus(s: RelayState): (r: StatusReport)
    ensures r.configured ==> r.message == "API key configured" && s.model.Some?
    ensures r.server == "running"
  {
    StatusReport(
      Truthy(s.apiKey) && s.model.Some?,
      if Truthy(s.apiKey) then "API key configured" else "API key required",
      "running")
  }

  /** What `generateContent` followed by `response.text()` gives. */
  datatype Reply = Generated(text: string) | Threw

  /** The single event a socket handler emits. */
  datatype Emission =
    | ErrorEvent(message: string)                         // `error`
    | AiReply(text: string, transcription: Option<string>)  // `ai_response`

  const NotInitialized: string := "Gemini AI not initialized. Please configure API key."
  const CouldNotProcess: string := "Could not process audio. Please try speaking again."
  const ProcessingFailed: string := "Failed to process your message. Please try again."

  const SampleTranscription: string :=
    "Hello, I'm interested in Revolt electric bikes. Can you tell me about the RV400?"

  /** simulateSTT: a placeholder that ignores the audio and always transcribes the same sentence. */
  function SimulateStt(audio: seq<bv8>, mimeType: string): (t: Option<string>)
    ensures Truthy(t)
  {
    Some(SampleTranscription)
  }

  /** With the placeholder in place, the transcription does not depend on the audio. */
  lemma SimulateSttIgnoresAudio(a: seq<bv8>, m: string, b: seq<bv8>, n: string)
    ensures SimulateStt(a, m) == SimulateStt(b, n) == Some(SampleTranscription)
  {
  }

  // ---------------------------------------------------------------------
  // Lifecycle of the administrative state.

  /** A `POST /set-api-key` request with its body's key and how initialisation goes. */
  datatype AdminRequest = AdminRequest(apiKey: Option<string>, outcome: InitOutcome)

  function AdminRun(s: RelayState, rs: seq<AdminRequest>): RelayState
    decreases |rs|
  {
    if rs == [] then s else AdminRun(SetKey(s, rs[0].apiKey, rs[0].outcome).0, rs[1..])
  }

  /** The key of the last request that installed a model, if any. */
  function LastInstalled(rs: seq<AdminRequest>): Option<string>
    decreases |rs|
  {
    if rs == [] then None
    else
      match LastInstalled(rs[1..])
      case Some(k) => Some(k)
      case None => if Truthy(rs[0].apiKey) && rs[0].outcome == Constructed then rs[0].apiKey else None
  }

  /** The key of the last request that carried a truthy key, if any. */
  function LastStored(rs: seq<AdminRequest>): Option<string>
    decreases |rs|
  {
    if rs == [] then None
    else
      match LastStored(rs[1..])
      case Some(k) => Some(k)
      case None => if Truthy(rs[0].apiKey) then rs[0].apiKey else None
  }

  /** A rejected key changes nothing and is answered with 400. */
  lemma RejectedKeyChangesNothing(s: RelayState, o: InitOutcome)
    ensures SetKey(s, None, o) == (s, HttpResponse(400, Failure(KeyRequired)))
    ensures SetKey(s, Some(""), o) == (s, HttpResponse(400, Failure(KeyRequired)))
  {
  }

  /** A truthy key is stored before initialising, so it stays stored when initialisation fails. */
  lemma KeyStoredEvenIfInitFails(s: RelayState, key: string, o: InitOutcome)
    requires key != ""
    ensures SetKey(s, Some(key), o).0.apiKey == Some(key)
    ensures SetKey(s, Some(key), o).1.status == 200 <==> o == Constructed
    ensures o != Constructed ==> SetKey(s, Some(key), o).0.model == s.model
  {
  }

  /** After a 200 from `/set-api-key`, `/api-status` reports configured. */
  lemma AcceptedKeyIsConfigured(s: RelayState, apiKey: Option<string>, o: InitOutcome)
    requires SetKey(s, apiKey, o).1.status == 200
    ensures ApiStatus(SetKey(s, apiKey, o).0).configured
    ensures SetKey(s, apiKey, o).0.model == Some(ModelHandle(apiKey.value))
  {
  }

  /**
   * `/api-status`: configured exactly when a truthy key and a model are both
   * present; the message depends on the key alone.
   */
  lemma StatusReportsKeyAndModel(s: RelayState, m: Option<ModelHandle>)
    ensures ApiStatus(s).configured <==> Truthy(s.apiKey) && s.model.Some?
    ensures ApiStatus(s).message == ApiStatus(s.(model := m)).message
    ensures ApiStatus(s).message == "API key configured" <==> Truthy(s.apiKey)
  {
  }

  /**
   * When re-initialisation fails in getGenerativeModel, the new key is stored
   * but the earlier model, built from the earlier key, stays installed, and
   * `/api-status` still reports configured.
   */
  lemma FailedReinitKeepsEarlierModel(s: RelayState, key: string)
    requires s.model.Some? && key != "" && key != s.model.value.key
    ensures var s' := SetKey(s, Some(key), ModelThrows).0;
      ApiStatus(s').configured && s'.apiKey == Some(key) && s'.genAI == Some(key)
      && s'.model == s.model && s'.model.value.key != key
  {
  }

  /**
   * After any sequence of `/set-api-key` requests the model is the one built
   * by the last request that installed one (or the earlier model if none
   * did), and the key is the last truthy key.
   */
  lemma {:induction false} AdminRunFinalState(s: RelayState, rs: seq<AdminRequest>)
    ensures AdminRun(s, rs).model ==
      (match LastInstalled(rs) case Some(k) => Some(ModelHandle(k)) case None => s.model)
    ensures AdminRun(s, rs).apiKey == (match LastStored(rs) case Some(k) => Some(k) case None => s.apiKey)
    decreases |rs|
  {
    if rs != [] {
      AdminRunFinalState(SetKey(s, rs[0].apiKey, rs[0].outcome).0, rs[1..]);
    }
  }

  /** Once a model is installed the relay never returns to the uninitialised state. */
  lemma {:induction false} ModelStaysInstalled(s: RelayState, rs: seq<AdminRequest>)
    requires s.model.Some?
    ensures AdminRun(s, rs).model.Some?
    decreases |rs|
  {
    if rs != [] {
      ModelStaysInstalled(SetKey(s, rs[0].apiKey, rs[0].outcome).0, rs[1..]);
    }
  }

  // ---------------------------------------------------------------------
  // The server as module-level variables that the handlers reassign.

  class Server {
    var apiKey: Option<string>
    var genAI: Option<string>
    var model: Option<ModelHandle>

    function Snapshot(): RelayState
      reads this
    {
      RelayState(apiKey, genAI, model)
    }

    /** Module load: read the environment's key and initialise when it is truthy. */
    constructor (env: Option<string>, o: InitOutcome)
      ensures Snapshot() == Startup(env, o)
    {
      apiKey := env;
      genAI := None;
      model := None;
      new;
      if Truthy(env) {
        var _ := InitializeAI(env.value, o);
      }
    }

    method InitializeAI(key: string, o: InitOutcome) returns (ok: bool)
      modifies this
      ensures (Snapshot(), ok) == Init(old(Snapshot()), key, o)
    {
      if o == ClientThrows {
        return false;
      }
      genAI := Some(key);
      if o == ModelThrows {
        return false;
      }
      model := Some(ModelHandle(key));
      return true;
    }

    method SetApiKey(body: Option<string>, o: InitOutcome) returns (response: HttpResponse)
      modifies this
      ensures (Snapshot(), response) == SetKey(old(Snapshot()), body, o)
    {
      if !Truthy(body) {
        return HttpResponse(400, Failure(KeyRequired));
      }
      apiKey := body;
      var success := InitializeAI(body.value, o);
      if success {
        response := HttpResponse(200, Ack(true, KeyAccepted));
      } else {
        response := HttpResponse(500, Failure(InitFailed));
      }
    }

    /**
     * The `audio_message` handler. `transcribe` stands for the speech-to-text
     * step (the source's SimulateStt); `prompt` is what was passed to
     * generateContent, `None` when generation was not attempted.
     */
    method OnAudioMessage(
      audio: seq<bv8>, mimeType: string,
      transcribe: (seq<bv8>, string) -> Option<string>,
      generate: (ModelHandle, string) -> Reply)
      returns (emitted: Emission, prompt: Option<string>)
      ensures model.None? ==> emitted == ErrorEvent(NotInitialized) && prompt == None
      ensures model.Some? && !Truthy(transcribe(audio, mimeType)) ==>
        emitted == ErrorEvent(CouldNotProcess) && prompt == None
      ensures model.Some? && Truthy(transcribe(audio, mimeType)) ==>
        prompt == transcribe(audio, mimeType)
        && emitted == match generate(model.value, prompt.value)
                      case Generated(text) => AiReply(text, prompt)
                      case Threw => ErrorEvent(ProcessingFailed)
    {
      if model.None? {
        return ErrorEvent(NotInitialized), None;
      }
      var transcription := transcribe(audio, mimeType);
      if !Truthy(transcription) {
        return ErrorEvent(CouldNotProcess), None;
      }
      prompt := transcription;
      var result := generate(model.value, transcription.value);
      match result
      case Generated(text) =>
        emitted := AiReply(text, transcription);
      case Threw =>
        emitted := ErrorEvent(ProcessingFailed);
    }

    /** The `text_message` handler: the message goes to generateContent unchecked. */
    method OnTextMessage(message: string, generate: (ModelHandle, string) -> Reply)
      returns (emitted: Emission, prompt: Option<string>)
      ensures model.None? ==> emitted == ErrorEvent(NotInitialized) && prompt == None
      ensures model.Some? ==> prompt == Some(message)
      ensures model.Some? && generate(model.value, message).Generated? ==>
        emitted == AiReply(generate(model.value, message).text, None)
      ensures model.Some? && generate(model.value, message).Threw? ==>
        emitted == ErrorEvent(ProcessingFailed)
    {
      if model.None? {
        return ErrorEvent(NotInitialized), None;
      }
      prompt := Some(message);
      var result := generate(model.value, message);
      if result.Generated? {
        emitted := AiReply(result.text, None);
      } else {
        emitted := ErrorEvent(ProcessingFailed);
      }
    }
  }
}
