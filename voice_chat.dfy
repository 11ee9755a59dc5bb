/**
 * The client voice-turn state machine of the VoiceChat component: one voice
 * state, an append-only transcript, the buffer of recorded audio chunks and
 * the facts the handlers consult (microphone permission, socket, recorder).
 *
 * Every handler of the component is a case of `Step`, a function on a
 * `Client` snapshot; the class `Component` keeps the same state in fields and
 * its methods change them in place, each proved to agree with `Step`.
 * Browser outcomes (getUserMedia, Blob.arrayBuffer, decodeAudioData) arrive
 * as boolean parameters of the events.
 */
module VoiceChat {

  datatype VoiceState = Idle | Connecting | Listening | Processing | Speaking | Error

  datatype Sender = User | Ai

  /** A transcript entry. The id and the timestamp are left out. */
  datatype Message = Message(sender: Sender, content: string)

  /** One recorded audio chunk (the bytes of a Blob). */
  type Chunk = seq<bv8>

  /** The component's `hasPermission`, which is `null` until the permission request settles. */
  datatype Permission = Unknown | Granted | Denied

  /**
   * How the asynchronous part of startRecording goes: getUserMedia or the
   * MediaRecorder constructor throws before the chunk buffer is reset, or
   * `recorder.start` throws after the reset, or recording begins.
   */
  datatype StartOutcome = MicRefused | StartThrows | Recording

  /** Snapshot of the component state. `sent` lists the audio payloads emitted as `audio_message`. */
  datatype Client = Client(
    state: VoiceState,
    messages: seq<Message>,
    chunks: seq<Chunk>,
    permission: Permission,
    socketPresent: bool,
    recorderPresent: bool,
    sent: seq<seq<bv8>>)

  /** Everything that can happen to the component, one handler invocation each. */
  datatype Event =
    | SocketCreated                          // the mount effect stores the new socket
    | PermissionResolved(granted: bool)      // the permission request settles
    | Connected                              // socket `connect`
    | Disconnected                           // socket `disconnect`
    | SocketError(description: string)       // socket `error`
    | AiResponse(text: string, hasAudio: bool)  // socket `ai_response`
    | AudioDecoded(ok: bool)                 // decodeAudioData settles inside playAudioResponse
    | PlaybackEnded                          // the buffer source's `onended`
    | Click(how: StartOutcome)               // handleVoiceAction; how: what startRecording meets, if it runs
    | DataAvailable(data: Chunk)             // the recorder's `ondataavailable`
    | RecorderStopped(bufferOk: bool)        // the recorder's `onstop`; bufferOk: arrayBuffer() resolves

  const VoiceMessage: string := "Voice message"

  /** The state right after the first render. */
  function Initial(): (c: Client)
    ensures !CanRecord(c) && c.messages == [] && c.chunks == []
  {
    Client(Idle, [], [], Unknown, false, false, [])
  }

  /** The bytes of a Blob built from the chunks, in order: it starts with the first chunk and ends with the last. */
  function Concat(chunks: seq<Chunk>): (blob: seq<bv8>)
    ensures chunks != [] ==> chunks[0] <= blob
    ensures chunks != [] ==>
      |chunks[|chunks| - 1]| <= |blob| && blob[|blob| - |chunks[|chunks| - 1]|..] == chunks[|chunks| - 1]
  {
    if chunks == [] then [] else chunks[0] + Concat(chunks[1..])
  }

  /** The guard at the top of startRecording. */
  predicate CanRecord(c: Client)
  {
    c.permission == Granted && c.socketPresent
  }

  /**
   * startRecording. The buffer is reset before `recorder.start`, so a throw
   * there still leaves it empty; the recorder is stored only once recording
   * has begun.
   */
  function Start(c: Client, how: StartOutcome): (r: Client)
    ensures !CanRecord(c) ==> r == c
    ensures CanRecord(c) ==> r.state == (if how == Recording then Listening else Error)
    ensures CanRecord(c) && how != MicRefused ==> r.chunks == []
    ensures !(CanRecord(c) && how != MicRefused) ==> r.chunks == c.chunks
    ensures r.recorderPresent <==> c.recorderPresent || (CanRecord(c) && how == Recording)
    ensures r.messages == c.messages && r.sent == c.sent
    ensures r.permission == c.permission && r.socketPresent == c.socketPresent
  {
    if !CanRecord(c) then c
    else
      match how
      case MicRefused => c.(state := Error)
      case StartThrows => c.(chunks := [], state := Error)
      case Recording => c.(chunks := [], recorderPresent := true, state := Listening)
  }

  /** stopRecording. */
  function Stop(c: Client): (r: Client)
    ensures c.recorderPresent && c.state == Listening ==> r == c.(state := Processing)
    ensures !(c.recorderPresent && c.state == Listening) ==> r == c
  {
    if c.recorderPresent && c.state == Listening then c.(state := Processing) else c
  }

  /** sendAudioToServer with the Blob's bytes; bufferOk says whether reading them succeeds. */
  function Send(c: Client, blob: seq<bv8>, bufferOk: bool): (r: Client)
    ensures !c.socketPresent ==> r == c
    ensures c.socketPresent && bufferOk ==>
      r.messages == c.messages + [Message(User, VoiceMessage)] && r.sent == c.sent + [blob] && r.state == c.state
    ensures c.socketPresent && !bufferOk ==>
      r.messages == c.messages && r.sent == c.sent && r.state == Error
    ensures r.chunks == c.chunks && r.permission == c.permission
    ensures r.socketPresent == c.socketPresent && r.recorderPresent == c.recorderPresent
  {
    if !c.socketPresent then c
    else if bufferOk then c.(messages := c.messages + [Message(User, VoiceMessage)], sent := c.sent + [blob])
    else c.(state := Error)
  }

  /** handleVoiceAction: start from idle, stop from listening, otherwise nothing. */
  function VoiceAction(c: Client, how: StartOutcome): (r: Client)
    ensures r != c ==> c.state == Idle || c.state == Listening
    ensures r.messages == c.messages && r.sent == c.sent
  {
    if c.state == Idle then Start(c, how)
    else if c.state == Listening then Stop(c)
    else c
  }

  /** The `ai_response` handler. Both state updates are batched, so without audio the final state is idle. */
  function Reply(c: Client, text: string, hasAudio: bool): (r: Client)
    ensures |r.messages| == |c.messages| + 1
    ensures r.messages[..|c.messages|] == c.messages
    ensures r.messages[|c.messages|] == Message(Ai, text)
    ensures r.state == (if hasAudio then Speaking else Idle)
    ensures r.(messages := c.messages, state := c.state) == c
  {
    var withReply := c.(messages := c.messages + [Message(Ai, text)], state := Speaking);
    if hasAudio then withReply else withReply.(state := Idle)
  }

  /**
   * One event applied to the component. The transcript grows by at most one
   * message, and once the socket or the recorder exists it stays.
   */
  function Step(c: Client, e: Event): (r: Client)
    ensures c.messages <= r.messages && |r.messages| <= |c.messages| + 1
    ensures c.socketPresent ==> r.socketPresent
    ensures c.recorderPresent ==> r.recorderPresent
  {
    match e
    case SocketCreated => c.(socketPresent := true)
    case PermissionResolved(granted) => c.(permission := if granted then Granted else Denied)
    case Connected => c.(state := Idle)
    case Disconnected => c.(state := Idle)
    case SocketError(_) => c.(state := Error)
    case AiResponse(text, hasAudio) => Reply(c, text, hasAudio)
    case AudioDecoded(ok) => if ok then c else c.(state := Idle)
    case PlaybackEnded => c.(state := Idle)
    case Click(how) => VoiceAction(c, how)
    case DataAvailable(data) => if |data| > 0 then c.(chunks := c.chunks + [data]) else c
    case RecorderStopped(bufferOk) => Send(c, Concat(c.chunks), bufferOk)
  }

  // ---------------------------------------------------------------------
  // Pure view functions of the component.

  /** getButtonVariant; idle (and connecting) fall to the default case. */
  function ButtonVariant(s: VoiceState): (v: string)
    ensures v == "voice" <==> s == Idle || s == Connecting
    ensures v == "destructive" <==> s == Error
  {
    match s
    case Listening => "voice-listening"
    case Processing => "voice-processing"
    case Speaking => "voice-speaking"
    case Error => "destructive"
    case _ => "voice"
  }

  /** getStatusText; idle falls to the default case. */
  function StatusText(s: VoiceState): (t: string)
    ensures s == Idle ==> t == "Click to talk to Rev"
    ensures s == Error ==> t == "Error - Please try again"
  {
    match s
    case Connecting => "Connecting..."
    case Listening => "Listening... (click to stop)"
    case Processing => "Processing..."
    case Speaking => "Rev is speaking..."
    case Error => "Error - Please try again"
    case _ => "Click to talk to Rev"
  }

  /** The `disabled` attribute of the voice button. */
  predicate ButtonDisabled(s: VoiceState): (disabled: bool)
    ensures !disabled <==> s == Idle || s == Listening || s == Error
  {
    s == Processing || s == Speaking || s == Connecting
  }

  // ---------------------------------------------------------------------
  // Properties of single steps.

  /** Every state has its own status text. */
  lemma StatusTextDistinct(a: VoiceState, b: VoiceState)
    requires a != b
    ensures StatusText(a) != StatusText(b)
  {
  }

  /**
   * A click changes something only in idle or listening. In error the button
   * is enabled and asks to try again, yet the click does nothing.
   */
  lemma ClickActsOnlyInIdleOrListening(c: Client, how: StartOutcome)
    ensures Step(c, Click(how)) != c ==> c.state == Idle || c.state == Listening
    ensures c.state == Error ==> !ButtonDisabled(c.state) && Step(c, Click(how)) == c
  {
  }

  /**
   * The button is disabled exactly in processing, speaking and connecting; a
   * disabled button never swallows a click that would have acted.
   */
  lemma DisabledButtonIgnoresClicks(c: Client, how: StartOutcome)
    ensures ButtonDisabled(c.state) ==> Step(c, Click(how)) == c
    ensures !ButtonDisabled(c.state) <==> c.state in {Idle, Listening, Error}
  {
  }

  /** From idle a click records only with permission and a socket: success listens, failure errs. */
  lemma ClickFromIdle(c: Client, how: StartOutcome)
    requires c.state == Idle
    ensures !CanRecord(c) ==> Step(c, Click(how)) == c
    ensures CanRecord(c) ==> Step(c, Click(how)).state == (if how == Recording then Listening else Error)
  {
  }

  /** The socket's `error` always yields error; `connect` and `disconnect` always yield idle. Nothing else changes. */
  lemma SocketEventsSetState(c: Client, description: string)
    ensures Step(c, SocketError(description)) == c.(state := Error)
    ensures Step(c, Connected) == c.(state := Idle) && Step(c, Disconnected) == c.(state := Idle)
  {
  }

  /** The end of playback and a failed decode both yield idle; a successful decode changes nothing. */
  lemma PlaybackReturnsToIdle(c: Client)
    ensures Step(c, PlaybackEnded) == c.(state := Idle) && Step(c, AudioDecoded(false)) == c.(state := Idle)
    ensures Step(c, AudioDecoded(true)) == c
  {
  }

  /** The chunk buffer is reset only when a recording starts and grows only by non-empty chunks. */
  lemma ChunkBuffer(c: Client, e: Event)
    ensures var r := Step(c, e);
      r.chunks == c.chunks
      || (r.chunks == [] && e.Click? && c.state == Idle && CanRecord(c) && e.how != MicRefused)
      || (e.DataAvailable? && |e.data| > 0 && r.chunks == c.chunks + [e.data])
  {
  }

  /** Every step either keeps the transcript or appends exactly one message to it. */
  lemma StepAppendsAtMostOne(c: Client, e: Event)
    ensures var r := Step(c, e);
      r.messages == c.messages
      || (e.AiResponse? && r.messages == c.messages + [Message(Ai, e.text)])
      || (r.messages == c.messages + [Message(User, VoiceMessage)] && e.RecorderStopped? && e.bufferOk)
  {
  }

  /** The states entered by a step, and what has to hold for each. */
  lemma StateEntry(c: Client, e: Event)
    ensures var r := Step(c, e);
      (r.state == Listening && c.state != Listening ==>
        e.Click? && e.how == Recording && c.state == Idle && CanRecord(c))
      && (r.state == Processing && c.state != Processing ==>
        e.Click? && c.state == Listening && c.recorderPresent)
      && (r.state == Speaking && c.state != Speaking ==> e.AiResponse? && e.hasAudio)
      && (r.state == Connecting ==> c.state == Connecting)
  {
  }

  // ---------------------------------------------------------------------
  // The component as an object whose handlers update its fields.

  class Component {
    var voiceState: VoiceState
    var messages: seq<Message>
    var chunks: seq<Chunk>
    var hasPermission: Permission
    var socketPresent: bool
    var recorderPresent: bool
    var sent: seq<seq<bv8>>

    function Snapshot(): Client
      reads this
    {
      Client(voiceState, messages, chunks, hasPermission, socketPresent, recorderPresent, sent)
    }

    constructor ()
      ensures Snapshot() == Initial()
    {
      voiceState := Idle;
      messages := [];
      chunks := [];
      hasPermission := Unknown;
      socketPresent := false;
      recorderPresent := false;
      sent := [];
    }

    method MountSocket()
      modifies this
      ensures Snapshot() == Step(old(Snapshot()), SocketCreated)
    {
      socketPresent := true;
    }

    method OnPermission(granted: bool)
      modifies this
      ensures Snapshot() == Step(old(Snapshot()), PermissionResolved(granted))
    {
      if granted {
        hasPermission := Granted;
      } else {
        hasPermission := Denied;
      }
    }

    method OnConnect()
      modifies this
      ensures Snapshot() == Step(old(Snapshot()), Connected)
    {
      voiceState := Idle;
    }

    method OnDisconnect()
      modifies this
      ensures Snapshot() == Step(old(Snapshot()), Disconnected)
    {
      voiceState := Idle;
    }

    method OnError(description: string)
      modifies this
      ensures Snapshot() == Step(old(Snapshot()), SocketError(description))
    {
      voiceState := Error;
    }

    method OnAiResponse(text: string, hasAudio: bool)
      modifies this
      ensures Snapshot() == Step(old(Snapshot()), AiResponse(text, hasAudio))
    {
      messages := messages + [Message(Ai, text)];
      voiceState := Speaking;
      if !hasAudio {
        voiceState := Idle;
      }
    }

    /** The part of playAudioResponse after decodeAudioData settles. */
    method OnAudioDecoded(ok: bool)
      modifies this
      ensures Snapshot() == Step(old(Snapshot()), AudioDecoded(ok))
    {
      if !ok {
        voiceState := Idle;
      }
    }

    method OnPlaybackEnded()
      modifies this
      ensures Snapshot() == Step(old(Snapshot()), PlaybackEnded)
    {
      voiceState := Idle;
    }

    method StartRecording(how: StartOutcome)
      modifies this
      ensures Snapshot() == Start(old(Snapshot()), how)
    {
      if hasPermission != Granted || !socketPresent {
        return;
      }
      if how == MicRefused {
        voiceState := Error;
        return;
      }
      chunks := [];
      if how == StartThrows {
        voiceState := Error;
        return;
      }
      recorderPresent := true;
      voiceState := Listening;
    }

    method StopRecording()
      modifies this
      ensures Snapshot() == Stop(old(Snapshot()))
    {
      if recorderPresent && voiceState == Listening {
        voiceState := Processing;
      }
    }

    method HandleVoiceAction(how: StartOutcome)
      modifies this
      ensures Snapshot() == Step(old(Snapshot()), Click(how))
    {
      if voiceState == Idle {
        StartRecording(how);
      } else if voiceState == Listening {
        StopRecording();
      }
    }

    method OnDataAvailable(data: Chunk)
      modifies this
      ensures Snapshot() == Step(old(Snapshot()), DataAvailable(data))
    {
      if |data| > 0 {
        chunks := chunks + [data];
      }
    }

    method SendAudioToServer(blob: seq<bv8>, bufferOk: bool)
      modifies this
      ensures Snapshot() == Send(old(Snapshot()), blob, bufferOk)
    {
      if !socketPresent {
        return;
      }
      if bufferOk {
        messages := messages + [Message(User, VoiceMessage)];
        sent := sent + [blob];
      } else {
        voiceState := Error;
      }
    }

    method OnRecorderStop(bufferOk: bool)
      modifies this
      ensures Snapshot() == Step(old(Snapshot()), RecorderStopped(bufferOk))
    {
      var blob := Concat(chunks);
      SendAudioToServer(blob, bufferOk);
    }
  }
}
