/** The session engine of App.tsx: the connection status and its transitions
    (toggle, open, message, error, close), the resources a conversation holds
    and their release (App.tsx:193-223), and the save-and-reset on disconnect
    (App.tsx:225-265). Wall-clock times are integer milliseconds; audio clock
    times are seconds. */
module Lifecycle {
  import opened Types
  import opened Strings
  import opened Feedback
  import opened Transcript
  import opened Playback
  import opened Errors

  /** A resource the browser or the service hands out: the live session, the
      microphone stream, the script processor and the two audio contexts. */
  datatype Handle = Handle(id: nat)

  /** The settings a saved session records. */
  datatype Settings = Settings(
    language: string,
    nativeLanguage: string,
    topic: string,
    voice: string,
    isTtsEnabled: bool)

  /** How starting a conversation ends once the API key is present: the
      microphone is refused, the connection fails after the microphone and
      both audio contexts were obtained, or the connection is made. */
  datatype StartOutcome = MicrophoneFailed(reason: string) | ConnectFailed(reason: string) | Connects

  /** One message from the service. `audio` is the duration in seconds of the
      decoded audio of the message, when it carries audio. */
  datatype ServerMessage = ServerMessage(
    outputTranscription: Option<string>,
    inputTranscription: Option<string>,
    turnComplete: bool,
    audio: Option<real>,
    interrupted: bool)

  /** What the toggle button does in each status. */
  datatype ToggleAction = Stop | Ignore | Start

  function ToggleActionOf(status: ConnectionStatus): (a: ToggleAction)
    ensures a == Ignore <==> status == Connecting
    ensures a == Stop <==> status == Connected
    ensures a == Start <==> status == Disconnected || status == Error
  {
    match status
    case Connected => Stop
    case Connecting => Ignore
    case Disconnected => Start
    case Error => Start
  }

  const MissingKeyReason: string := "API key not provided. Please set your API key in the settings."
  const StartErrorPrefix: string := "Error: "
  const StreamErrorPrefix: string := "An error occurred: "

  /** The message shown when starting fails. */
  function StartErrorText(reason: string): string
  {
    StartErrorPrefix + FriendlyErrorMessage(reason)
  }

  /** The message shown when the open connection reports an error. */
  function StreamErrorText(reason: string): string
  {
    StreamErrorPrefix + FriendlyErrorMessage(reason)
  }

  /** Whether a message is an error notice that a retry removes. */
  predicate IsErrorNotice(m: Message)
  {
    m.role == Ai && (StartsWith(m.text, "Error:") || StartsWith(m.text, "An error occurred:"))
  }

  /** On retry, the last message goes when it is an error notice. */
  function WithoutTrailingError(conv: seq<Message>): seq<Message>
  {
    if |conv| > 0 && IsErrorNotice(conv[|conv| - 1]) then conv[..|conv| - 1] else conv
  }

  /** The reason start-up fails with, if it does. */
  function StartFailure(apiKey: string, outcome: StartOutcome): Option<string>
  {
    if apiKey == [] then Some(MissingKeyReason)
    else
      match outcome
      case MicrophoneFailed(r) => Some(r)
      case ConnectFailed(r) => Some(r)
      case Connects => None
  }

  /** Math.round(ms / 1000): the nearest whole second, halves rounded up. */
  function RoundedSeconds(ms: int): (s: int)
    ensures s * 1000 - 500 <= ms < s * 1000 + 500
  {
    (ms + 500) / 1000
  }

  /** The elapsed seconds of a session; no start time, or a start time of 0,
      gives 0. */
  function ElapsedSeconds(startTime: Option<int>, now: int): int
  {
    if startTime.Some? && startTime.value != 0 then RoundedSeconds(now - startTime.value) else 0
  }

  /** The stored duration: a session of one second or less is stored as 0. */
  function StoredDuration(seconds: int): (d: int)
    ensures seconds > 1 ==> d == seconds
    ensures seconds <= 1 ==> d == 0
  {
    if seconds > 1 then seconds else 0
  }

  function SessionId(now: int): string
  {
    "session_" + IntToDecimal(now)
  }

  /** The record saved on disconnect; the first message is left out. */
  function SessionRecord(now: int, settings: Settings, conv: seq<Message>, seconds: int): ConversationSession
    requires |conv| > 0
  {
    ConversationSession(
      SessionId(now), now, settings.language, Some(settings.nativeLanguage), Some(settings.topic),
      Some(settings.voice), Some(settings.isTtsEnabled), Some(StoredDuration(seconds)), conv[1..])
  }

  /** What disconnecting appends to the saved history. */
  function Saved(now: int, settings: Settings, conv: seq<Message>, seconds: int): seq<ConversationSession>
  {
    if |conv| > 1 then [SessionRecord(now, settings, conv, seconds)] else []
  }

  function Held(o: Option<Handle>): seq<Handle>
  {
    if o.Some? then [o.value] else []
  }

  /** The text a transcription carries, or nothing. */
  function Fragment(t: Option<string>): string
  {
    if t.Some? then t.value else []
  }

  /** The playback effect of one message: its audio is scheduled when the
      output context exists, and an interrupt then stops everything. Audio
      that arrives after cleanup makes the handler throw before the
      interrupt is looked at, so nothing changes. */
  function AudioStep(p: Player, msg: ServerMessage, outputOpen: bool, clock: real): (q: Player)
    requires clock >= 0.0 && (msg.audio.Some? ==> msg.audio.value >= 0.0)
    ensures msg.audio.Some? && !outputOpen ==> q == p
    ensures msg.interrupted && (msg.audio.None? || outputOpen) ==>
      q.live == {} && q.cursor == 0.0 &&
      q.stopped == p.stopped + p.live + (if msg.audio.Some? then {p.nextSource} else {})
    ensures msg.audio.Some? && outputOpen && !msg.interrupted ==>
      q.cursor == NextStart(p.cursor, clock) + msg.audio.value && q.live == p.live + {p.nextSource} &&
      q.stopped == p.stopped && q.nextSource == p.nextSource + 1
    ensures msg.audio.None? && !msg.interrupted ==> q == p
    ensures Sound(p) ==> Sound(q)
  {
    if msg.audio.Some? && !outputOpen then p
    else
      var scheduled := if msg.audio.Some? then Schedule(p, clock, msg.audio.value).0 else p;
      if msg.interrupted then StopAll(scheduled) else scheduled
  }

  /** Releasing one resource after another logs them in that order. */
  lemma {:induction false} HeldInOrder(log: seq<Handle>, a: seq<Handle>, b: seq<Handle>, c: seq<Handle>,
                                       d: seq<Handle>, e: seq<Handle>)
    ensures log + a + b + c + d + e == log + (a + b + c + d + e)
  {
  }

  /** Whether a start obtains the microphone and both audio contexts and then
      asks for the session: it does unless the key is missing or the
      microphone is refused. */
  predicate ObtainsConnection(apiKey: string, outcome: StartOutcome)
  {
    apiKey != [] && !outcome.MicrophoneFailed?
  }

  /** The handles a start obtains when the next identity is `n`, in the order
      cleanup releases them: the session (obtained last), the stream and the
      two audio contexts. */
  function ConnectionHandles(n: nat): seq<Handle>
  {
    [Handle(n + 3), Handle(n), Handle(n + 1), Handle(n + 2)]
  }

  class Session {
    var status: ConnectionStatus
    var conversation: seq<Message>
    /** The transcription fragments of the current turn. */
    var inputBuffer: string
    var outputBuffer: string
    var liveSession: Option<Handle>
    var stream: Option<Handle>
    var processor: Option<Handle>
    var inputContext: Option<Handle>
    var outputContext: Option<Handle>
    /** The identity the next resource gets. */
    var nextHandle: nat
    /** Every resource released, in the order of release. */
    var released: seq<Handle>
    /** The wall-clock time the current attempt started at, if any. */
    var startTime: Option<int>
    /** The saved sessions. */
    var history: seq<ConversationSession>
    var settings: Settings
    /** The playback cursor and sources. */
    var player: Player

    /** The resources currently held, in the order cleanup releases them. */
    function Resources(): seq<Handle>
      reads this
    {
      Held(liveSession) + Held(stream) + Held(processor) + Held(inputContext) + Held(outputContext)
    }

    /** Whether no resource is held. */
    predicate NothingHeld()
      reads this
      ensures NothingHeld() <==> Resources() == []
    {
      liveSession.None? && stream.None? && processor.None? && inputContext.None? && outputContext.None?
    }

    /** No resource is held while disconnected or showing an error, and the
        playback state is sound. */
    ghost predicate Valid()
      reads this
    {
      ((status == Disconnected || status == Error) ==> NothingHeld()) && Sound(player)
    }

    constructor (settings: Settings)
      ensures Valid()
      ensures status == Disconnected && conversation == Welcome && player == Idle
      ensures inputBuffer == [] && outputBuffer == []
      ensures NothingHeld() && released == [] && startTime == None && history == []
      ensures this.settings == settings
    {
      status := Disconnected;
      conversation := Welcome;
      inputBuffer := [];
      outputBuffer := [];
      liveSession := None;
      stream := None;
      processor := None;
      inputContext := None;
      outputContext := None;
      nextHandle := 0;
      released := [];
      startTime := None;
      history := [];
      this.settings := settings;
      player := Idle;
    }

    /** A fresh resource. */
    method Acquire() returns (h: Handle)
      requires Valid()
      modifies this`nextHandle
      ensures Valid()
      ensures h == Handle(old(nextHandle)) && nextHandle == old(nextHandle) + 1
    {
      h := Handle(nextHandle);
      nextHandle := nextHandle + 1;
    }

    /** cleanupConnection: release each resource that is held and forget it,
        then stop all playback and reset its cursor. */
    method Cleanup()
      requires Valid()
      modifies this`liveSession, this`stream, this`processor, this`inputContext, this`outputContext
      modifies this`released, this`player
      ensures Valid()
      ensures released == old(released) + old(Resources()) && NothingHeld()
      ensures player == StopAll(old(player))
    {
      released := released + Held(liveSession);
      liveSession := None;
      released := released + Held(stream);
      stream := None;
      released := released + Held(processor);
      processor := None;
      released := released + Held(inputContext);
      inputContext := None;
      released := released + Held(outputContext);
      outputContext := None;
      player := StopAll(player);
      HeldInOrder(old(released), old(Held(liveSession)), old(Held(stream)), old(Held(processor)),
                  old(Held(inputContext)), old(Held(outputContext)));
    }

    /** handleDisconnect: clean up, save the conversation when it holds more
        than the first message, reset it to the greeting and disconnect. */
    method Disconnect(now: int)
      requires Valid()
      modifies this`liveSession, this`stream, this`processor, this`inputContext, this`outputContext
      modifies this`released, this`player
      modifies this`startTime, this`history, this`conversation, this`status
      ensures Valid()
      ensures released == old(released) + old(Resources()) && NothingHeld()
      ensures player == StopAll(old(player))
      ensures history == old(history) + Saved(now, settings, old(conversation), ElapsedSeconds(old(startTime), now))
      ensures conversation == Welcome && status == Disconnected && startTime == None
    {
      Cleanup();
      var duration := ElapsedSeconds(startTime, now);
      startTime := None;
      if |conversation| > 1 {
        history := history + [SessionRecord(now, settings, conversation, duration)];
      }
      conversation := Welcome;
      status := Disconnected;
    }

    /** The catch block of a failed start: the notice is appended, the status
        is ERROR and everything is cleaned up. The three updates are applied
        together; the model releases first so that the invariant holds
        between steps. */
    method FailStart(reason: string)
      requires Valid()
      modifies this`liveSession, this`stream, this`processor, this`inputContext, this`outputContext
      modifies this`released, this`player, this`conversation, this`status
      ensures Valid()
      ensures conversation == old(conversation) + [AiMessage(StartErrorText(reason))]
      ensures status == Error
      ensures released == old(released) + old(Resources()) && NothingHeld()
      ensures player == StopAll(old(player))
    {
      Cleanup();
      conversation := conversation + [AiMessage(StartErrorText(reason))];
      status := Error;
    }

    /** The start-up path of toggleConversation, from DISCONNECTED or ERROR:
        a retry first removes the error notice it left, then the status is
        CONNECTING and the start time is set; a missing key, a refused
        microphone or a failed connection ends in ERROR with everything
        released. */
    method Connect(now: int, apiKey: string, outcome: StartOutcome)
      requires Valid() && (status == Disconnected || status == Error)
      modifies this`liveSession, this`stream, this`processor, this`inputContext, this`outputContext
      modifies this`released, this`player, this`nextHandle
      modifies this`startTime, this`conversation, this`status
      ensures Valid() && startTime == Some(now)
      ensures nextHandle == old(nextHandle) + (if ObtainsConnection(apiKey, outcome) then 4 else 0)
      ensures var base := if old(status) == Error then WithoutTrailingError(old(conversation)) else old(conversation);
        match StartFailure(apiKey, outcome)
        case Some(reason) =>
          conversation == base + [AiMessage(StartErrorText(reason))] && status == Error && NothingHeld() &&
          player == StopAll(old(player)) &&
          released == old(released) + (if ObtainsConnection(apiKey, outcome) then ConnectionHandles(old(nextHandle)) else [])
        case None =>
          conversation == base && status == Connecting && player == old(player) && released == old(released) &&
          liveSession.Some? && stream.Some? && inputContext.Some? && outputContext.Some? && processor.None? &&
          Resources() == ConnectionHandles(old(nextHandle))
    {
      if status == Error {
        conversation := WithoutTrailingError(conversation);
      }
      status := Connecting;
      startTime := Some(now);
      Obtain(apiKey, outcome);
    }

    /** The part of the start that runs while CONNECTING: with nothing held
        yet, ask for the key, the microphone and the session in turn. */
    method Obtain(apiKey: string, outcome: StartOutcome)
      requires status == Connecting && NothingHeld() && Sound(player)
      modifies this`liveSession, this`stream, this`processor, this`inputContext, this`outputContext
      modifies this`released, this`player, this`nextHandle, this`conversation, this`status
      ensures Valid()
      ensures nextHandle == old(nextHandle) + (if ObtainsConnection(apiKey, outcome) then 4 else 0)
      ensures match StartFailure(apiKey, outcome)
        case Some(reason) =>
          conversation == old(conversation) + [AiMessage(StartErrorText(reason))] && status == Error &&
          NothingHeld() && player == StopAll(old(player)) &&
          released == old(released) + (if ObtainsConnection(apiKey, outcome) then ConnectionHandles(old(nextHandle)) else [])
        case None =>
          conversation == old(conversation) && status == Connecting && player == old(player) &&
          released == old(released) && processor.None? && Resources() == ConnectionHandles(old(nextHandle)) &&
          liveSession.Some? && stream.Some? && inputContext.Some? && outputContext.Some?
    {
      if apiKey == [] {
        FailStart(MissingKeyReason);
        return;
      }
      match outcome
      case MicrophoneFailed(reason) =>
        FailStart(reason);
      case ConnectFailed(reason) =>
        AcquireConnection();
        FailStart(reason);
      case Connects =>
        AcquireConnection();
    }

    /** toggleConversation: stop a live conversation, ignore the button while
        connecting, and otherwise start one. */
    method Toggle(now: int, apiKey: string, outcome: StartOutcome)
      requires Valid()
      modifies this`liveSession, this`stream, this`processor, this`inputContext, this`outputContext
      modifies this`released, this`player, this`nextHandle
      modifies this`startTime, this`history, this`conversation, this`status
      ensures Valid()
      ensures old(status) == Connected ==>
        conversation == Welcome && status == Disconnected && startTime == None && NothingHeld() &&
        history == old(history) + Saved(now, settings, old(conversation), ElapsedSeconds(old(startTime), now)) &&
        released == old(released) + old(Resources()) && player == StopAll(old(player))
      ensures old(status) == Connecting ==> unchanged(this)
      ensures ToggleActionOf(old(status)) == Start ==>
        history == old(history) && startTime == Some(now) &&
        (status == Error <==> StartFailure(apiKey, outcome).Some?) &&
        (status == Connecting <==> StartFailure(apiKey, outcome).None?)
    {
      if status == Connected {
        Disconnect(now);
        return;
      }
      if status == Connecting {
        return;
      }
      Connect(now, apiKey, outcome);
    }

    /** The microphone stream, both audio contexts and the session, in the
        order start-up obtains them. */
    method AcquireConnection()
      requires Valid() && status == Connecting && NothingHeld()
      modifies this`stream, this`inputContext, this`outputContext, this`liveSession, this`nextHandle
      ensures Valid()
      ensures liveSession.Some? && stream.Some? && inputContext.Some? && outputContext.Some? && processor.None?
      ensures Resources() == ConnectionHandles(old(nextHandle)) && nextHandle == old(nextHandle) + 4
    {
      var s := Acquire();
      stream := Some(s);
      var i := Acquire();
      inputContext := Some(i);
      var o := Acquire();
      outputContext := Some(o);
      var l := Acquire();
      liveSession := Some(l);
    }

    /** onopen: the status becomes CONNECTED, then the script processor is
        created on the input context; without one the handler throws there. */
    method Open()
      requires Valid()
      modifies this`status, this`processor, this`nextHandle
      ensures Valid()
      ensures status == Connected
      ensures old(inputContext).Some? ==> processor == Some(Handle(old(nextHandle)))
      ensures old(inputContext).None? ==> processor == old(processor)
    {
      status := Connected;
      if inputContext.Some? {
        var p := Acquire();
        processor := Some(p);
      }
    }

    /** onmessage: buffer the transcription fragments, complete the turn,
        schedule the audio and handle an interrupt, in that order. */
    method Receive(msg: ServerMessage, clock: real)
      requires Valid() && clock >= 0.0
      requires msg.audio.Some? ==> msg.audio.value >= 0.0
      modifies this`outputBuffer, this`inputBuffer, this`conversation, this`player
      ensures Valid()
      ensures var inBuf := old(inputBuffer) + Fragment(msg.inputTranscription);
        var outBuf := old(outputBuffer) + Fragment(msg.outputTranscription);
        if msg.turnComplete then
          conversation == CompleteTurn(old(conversation), inBuf, outBuf) && inputBuffer == [] && outputBuffer == []
        else
          conversation == old(conversation) && inputBuffer == inBuf && outputBuffer == outBuf
      ensures player == AudioStep(old(player), msg, outputContext.Some?, clock)
    {
      Transcribe(msg);
      PlayAudio(msg, clock);
    }

    /** The transcript part of onmessage: the fragments are appended, output
        first, and a completed turn moves them into the conversation. */
    method Transcribe(msg: ServerMessage)
      requires Valid()
      modifies this`outputBuffer, this`inputBuffer, this`conversation
      ensures Valid()
      ensures var inBuf := old(inputBuffer) + Fragment(msg.inputTranscription);
        var outBuf := old(outputBuffer) + Fragment(msg.outputTranscription);
        if msg.turnComplete then
          conversation == CompleteTurn(old(conversation), inBuf, outBuf) && inputBuffer == [] && outputBuffer == []
        else
          conversation == old(conversation) && inputBuffer == inBuf && outputBuffer == outBuf
    {
      outputBuffer := outputBuffer + Fragment(msg.outputTranscription);
      inputBuffer := inputBuffer + Fragment(msg.inputTranscription);
      if msg.turnComplete {
        conversation := TurnComplete(conversation, inputBuffer, outputBuffer);
        inputBuffer := [];
        outputBuffer := [];
      }
    }

    /** The audio part of onmessage. Reading the clock of a missing output
        context throws, which ends the handler before the interrupt. */
    method PlayAudio(msg: ServerMessage, clock: real)
      requires Valid() && clock >= 0.0
      requires msg.audio.Some? ==> msg.audio.value >= 0.0
      modifies this`player
      ensures Valid()
      ensures player == AudioStep(old(player), msg, outputContext.Some?, clock)
    {
      if msg.audio.Some? {
        if outputContext.None? {
          return;
        }
        var (next, slot) := Schedule(player, clock, msg.audio.value);
        player := next;
      }
      if msg.interrupted {
        player := StopAll(player);
      }
    }

    /** The `ended` event of a playing source. */
    method SourceEnded(source: nat)
      requires Valid()
      modifies this`player
      ensures Valid()
      ensures player == Ended(old(player), source)
    {
      player := Ended(player, source);
    }

    /** onerror: append the notice, set ERROR and clean up. */
    method StreamError(reason: string)
      requires Valid()
      modifies this`liveSession, this`stream, this`processor, this`inputContext, this`outputContext
      modifies this`released, this`player, this`conversation, this`status
      ensures Valid()
      ensures conversation == old(conversation) + [AiMessage(StreamErrorText(reason))]
      ensures status == Error
      ensures released == old(released) + old(Resources()) && NothingHeld()
      ensures player == StopAll(old(player))
    {
      Cleanup();
      conversation := conversation + [AiMessage(StreamErrorText(reason))];
      status := Error;
    }

    /** onclose: disconnect, unless an error is being shown. */
    method Close(now: int)
      requires Valid()
      modifies this`liveSession, this`stream, this`processor, this`inputContext, this`outputContext
      modifies this`released, this`player
      modifies this`startTime, this`history, this`conversation, this`status
      ensures Valid()
      ensures old(status) == Error ==> unchanged(this)
      ensures old(status) != Error ==>
        status == Disconnected && conversation == Welcome && startTime == None && NothingHeld() &&
        history == old(history) + Saved(now, settings, old(conversation), ElapsedSeconds(old(startTime), now)) &&
        released == old(released) + old(Resources()) && player == StopAll(old(player))
    {
      if status != Error {
        Disconnect(now);
      }
    }
  }

  // Properties of the pieces of the lifecycle

  /** A retry removes exactly the notice a failed start or a stream error
      left. */
  lemma {:induction false} RetryRemovesNotice(conv: seq<Message>, reason: string)
    ensures WithoutTrailingError(conv + [AiMessage(StartErrorText(reason))]) == conv
    ensures WithoutTrailingError(conv + [AiMessage(StreamErrorText(reason))]) == conv
  {
    var s := StartErrorText(reason);
    assert s[..|"Error:"|] == "Error:";
    var t := StreamErrorText(reason);
    assert t[..|"An error occurred:"|] == "An error occurred:";
    assert (conv + [AiMessage(s)])[..|conv|] == conv;
    assert (conv + [AiMessage(t)])[..|conv|] == conv;
  }

  /** A retry keeps a conversation whose last message is not an error notice. */
  lemma {:induction false} RetryKeepsOtherMessages(conv: seq<Message>)
    requires |conv| > 0 && !IsErrorNotice(conv[|conv| - 1])
    ensures WithoutTrailingError(conv) == conv
  {
  }

  /** A retry removes at most the last message, and only an error notice. */
  lemma {:induction false} RetryRemovesAtMostOne(conv: seq<Message>)
    ensures var r := WithoutTrailingError(conv);
      r == conv || (|conv| > 0 && r == conv[..|conv| - 1] && IsErrorNotice(conv[|conv| - 1]))
  {
  }

  /** The user's own messages are never removed by a retry. */
  lemma {:induction false} RetryKeepsUserMessages(conv: seq<Message>)
    requires |conv| > 0 && conv[|conv| - 1].role == User
    ensures WithoutTrailingError(conv) == conv
  {
  }

  /** A session is stored with duration 0 exactly when it lasted less than
      1.5 seconds, since 1.5 seconds already rounds to 2. */
  lemma {:induction false} ShortSessionStoredAsZero(ms: int)
    ensures StoredDuration(RoundedSeconds(ms)) == 0 <==> ms < 1500
    ensures ms >= 1500 ==> StoredDuration(RoundedSeconds(ms)) == RoundedSeconds(ms) >= 2
  {
    var s := RoundedSeconds(ms);
    if ms < 1500 {
      assert s <= 1;
    } else {
      assert s >= 2;
    }
  }

  /** The saved id carries the save time in decimal. */
  lemma {:induction false} SessionIdCarriesTime(now: int)
    ensures StartsWith(SessionId(now), "session_")
    ensures ParseInt(SessionId(now)[|"session_"|..]) == Some(now)
  {
    var id := SessionId(now);
    assert id[..|"session_"|] == "session_";
    assert id[|"session_"|..] == IntToDecimal(now);
    ParseIntDecimal(now);
  }

  /** Only a conversation with more than its first message is saved, and the
      record holds everything after the first message. */
  lemma {:induction false} SavedRecord(now: int, settings: Settings, conv: seq<Message>, seconds: int)
    ensures |Saved(now, settings, conv, seconds)| == (if |conv| > 1 then 1 else 0)
    ensures |conv| > 1 ==>
      var r := Saved(now, settings, conv, seconds)[0];
      r.messages == conv[1..] && |r.messages| == |conv| - 1 && r.timestamp == now &&
      r.duration == Some(StoredDuration(seconds)) && r.language == settings.language
  {
  }

  /** Because the first turn already replaced the greeting, the first message
      of a session is that turn's USER message, and the saved record leaves it
      out. */
  lemma {:induction false} FirstUserMessageNotSaved(inBuf: string, outBuf: string, now: int, settings: Settings, seconds: int)
    requires Trim(inBuf) != []
    requires |CompleteTurn(Welcome, inBuf, outBuf)| > 1
    ensures var conv := CompleteTurn(Welcome, inBuf, outBuf);
      conv[0].role == User && conv[0].text == Trim(inBuf) &&
      Saved(now, settings, conv, seconds)[0].messages == conv[1..]
  {
    TurnMessages(Welcome, inBuf, outBuf);
    assert EndsWithGreeting(Welcome);
    assert TurnBase(Welcome) == [];
  }
}
