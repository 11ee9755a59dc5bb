/**
 * Properties of whole runs of the voice-chat component: what a sequence of
 * events does to the transcript, and an invariant that every reachable state
 * satisfies.
 */
module VoiceChatRuns {
  import opened VoiceChat

  /** The events applied one after another. */
  function Run(c: Client, es: seq<Event>): Client
    decreases |es|
  {
    if es == [] then c else Run(Step(c, es[0]), es[1..])
  }

  /** The contents of the AI messages, in transcript order. */
  function AiContents(ms: seq<Message>): seq<string>
  {
    if ms == [] then []
    else AiContents(ms[..|ms| - 1]) + (if ms[|ms| - 1].sender == Ai then [ms[|ms| - 1].content] else [])
  }

  /** The number of user messages. */
  function UserTurns(ms: seq<Message>): nat
  {
    if ms == [] then 0
    else UserTurns(ms[..|ms| - 1]) + (if ms[|ms| - 1].sender == User then 1 else 0)
  }

  /** The texts carried by the `ai_response` events, in order. */
  function ReplyTexts(es: seq<Event>): seq<string>
  {
    if es == [] then []
    else (if es[0].AiResponse? then [es[0].text] else []) + ReplyTexts(es[1..])
  }

  /**
   * What every reachable state satisfies: buffered chunks are non-empty, each
   * user message is a voice message and was paired with one `audio_message`,
   * nothing ever enters `connecting`, and listening or processing implies a
   * recorder and a socket.
   */
  ghost predicate Inv(c: Client)
  {
    (forall i :: 0 <= i < |c.chunks| ==> |c.chunks[i]| > 0)
    && (forall i :: 0 <= i < |c.messages| && c.messages[i].sender == User ==> c.messages[i].content == VoiceMessage)
    && UserTurns(c.messages) == |c.sent|
    && c.state != Connecting
    && (c.state == Listening || c.state == Processing ==> c.recorderPresent && c.socketPresent)
  }

  /** One step adds the reply's text to the AI contents when it is an `ai_response`, and nothing otherwise. */
  lemma StepAiContents(c: Client, e: Event)
    ensures AiContents(Step(c, e).messages) == AiContents(c.messages) + (if e.AiResponse? then [e.text] else [])
  {
  }

  lemma InitialInv()
    ensures Inv(Initial())
  {
  }

  lemma StepInv(c: Client, e: Event)
    requires Inv(c)
    ensures Inv(Step(c, e))
  {
  }

  /** The invariant holds after any sequence of events from a state that satisfies it. */
  lemma {:induction false} RunInv(c: Client, es: seq<Event>)
    requires Inv(c)
    ensures Inv(Run(c, es))
    decreases |es|
  {
    if es != [] {
      StepInv(c, es[0]);
      RunInv(Step(c, es[0]), es[1..]);
    }
  }

  /**
   * From the first render, the component never shows `connecting`, never
   * buffers an empty chunk, and sends one `audio_message` per user message.
   */
  lemma {:induction false} Reachable(es: seq<Event>)
    ensures Run(Initial(), es).state != Connecting
    ensures forall i :: 0 <= i < |Run(Initial(), es).chunks| ==> |Run(Initial(), es).chunks[i]| > 0
    ensures UserTurns(Run(Initial(), es).messages) == |Run(Initial(), es).sent|
  {
    InitialInv();
    RunInv(Initial(), es);
  }

  /** The transcript only grows: the old transcript is a prefix of the new one. */
  lemma {:induction false} TranscriptAppendOnly(c: Client, es: seq<Event>)
    ensures c.messages <= Run(c, es).messages
    decreases |es|
  {
    if es != [] {
      StepAppendsAtMostOne(c, es[0]);
      TranscriptAppendOnly(Step(c, es[0]), es[1..]);
    }
  }

  /**
   * Every `ai_response` adds its text verbatim to the transcript, in arrival
   * order, and no other event adds an AI message.
   */
  lemma {:induction false} RepliesRecordedVerbatim(c: Client, es: seq<Event>)
    ensures AiContents(Run(c, es).messages) == AiContents(c.messages) + ReplyTexts(es)
    decreases |es|
  {
    if es != [] {
      StepAiContents(c, es[0]);
      RepliesRecordedVerbatim(Step(c, es[0]), es[1..]);
    }
  }
}
