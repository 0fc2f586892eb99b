/** Turn completion: when the service signals the end of a turn, the two
    transcription buffers become at most one USER and one AI message, and the
    feedback parsed from the AI text is written onto the most recent USER
    message (App.tsx:454-525). */
module Transcript {
  import opened Types
  import opened Strings
  import opened Feedback

  /** The message the conversation starts with and is reset to. */
  const Greeting: string :=
    "Hello! What language would you like to practice today? Select one below and press the microphone to start."

  const Welcome: seq<Message> := [AiMessage(Greeting)]

  predicate EndsWithGreeting(conv: seq<Message>)
  {
    |conv| > 0 && conv[|conv| - 1].text == Greeting
  }

  /** The index of the last USER message, or -1 when there is none. */
  function LastUserIndex(conv: seq<Message>): (i: int)
    ensures -1 <= i < |conv|
    ensures i >= 0 ==> conv[i].role == User
    ensures forall k :: i < k < |conv| ==> conv[k].role != User
    decreases |conv|
  {
    if conv == [] then -1
    else if conv[|conv| - 1].role == User then |conv| - 1
    else LastUserIndex(conv[..|conv| - 1])
  }

  /** The reverse scan that finds the last USER message. */
  method FindLastUserIndex(conv: seq<Message>) returns (i: int)
    ensures i == LastUserIndex(conv)
  {
    i := |conv| - 1;
    while i >= 0 && conv[i].role != User
      invariant -1 <= i < |conv|
      invariant forall k :: i < k < |conv| ==> conv[k].role != User
      decreases i + 1
    {
      i := i - 1;
    }
  }

  /** A present annotation replaces what the message held; an absent one
      leaves it alone. */
  function Annotated(m: Message, c: Option<Correction>, p: Option<Pronunciation>): Message
  {
    m.(correction := if c.Some? then c else m.correction,
       pronunciationFeedback := if p.Some? then p else m.pronunciationFeedback)
  }

  /** Write the annotations onto the last USER message, if there is one. */
  function Attach(conv: seq<Message>, c: Option<Correction>, p: Option<Pronunciation>): seq<Message>
  {
    var i := LastUserIndex(conv);
    if i < 0 then conv else conv[i := Annotated(conv[i], c, p)]
  }

  /** The conversation the turn is added to: emptied when its last message is
      the greeting. */
  function TurnBase(prev: seq<Message>): seq<Message>
  {
    if EndsWithGreeting(prev) then [] else prev
  }

  /** The USER message of the turn, if the trimmed input is not empty. */
  function UserPart(inBuf: string): seq<Message>
  {
    var input := Trim(inBuf);
    if input != [] then [UserMessage(input)] else []
  }

  /** The AI message of the turn, if the stripped display text is not empty. */
  function AiPart(turn: ParsedTurn): seq<Message>
  {
    if turn.display != [] then [AiMessage(turn.display)] else []
  }

  /** The conversation after a completed turn, as a function of the
      conversation before it and the two buffers. */
  function CompleteTurn(prev: seq<Message>, inBuf: string, outBuf: string): seq<Message>
  {
    var turn := ParseAiTurn(Trim(outBuf));
    Attach(TurnBase(prev) + UserPart(inBuf), turn.correction, turn.pronunciation) + AiPart(turn)
  }

  /** The annotation step as App.tsx performs it: a reverse scan, then one
      assignment per present annotation. */
  method AttachAtLastUser(conv: seq<Message>, c: Option<Correction>, p: Option<Pronunciation>)
    returns (r: seq<Message>)
    ensures r == Attach(conv, c, p)
  {
    r := conv;
    var last := FindLastUserIndex(conv);
    if last != -1 {
      if c.Some? {
        r := r[last := r[last].(correction := c)];
      }
      if p.Some? {
        r := r[last := r[last].(pronunciationFeedback := p)];
      }
    }
  }

  /** The turn as App.tsx computes it: a copy of the conversation grown by
      pushes, with the annotations assigned at the index of a reverse scan. */
  method TurnComplete(prev: seq<Message>, inBuf: string, outBuf: string) returns (next: seq<Message>)
    ensures next == CompleteTurn(prev, inBuf, outBuf)
  {
    var fullInput := Trim(inBuf);
    var fullOutput := Trim(outBuf);
    next := prev;
    if EndsWithGreeting(prev) {
      next := [];
    }
    if fullInput != [] {
      next := next + [UserMessage(fullInput)];
    }
    assert next == TurnBase(prev) + UserPart(inBuf);
    var turn := ParseAiTurn(fullOutput);
    next := AttachAtLastUser(next, turn.correction, turn.pronunciation);
    if turn.display != [] {
      next := next + [AiMessage(turn.display)];
    }
  }

  // Properties of annotation attachment

  /** Attaching changes only the last USER message, never an AI message, and
      keeps the length, the roles and the texts. */
  lemma {:induction false} AttachOnlyLastUser(conv: seq<Message>, c: Option<Correction>, p: Option<Pronunciation>)
    ensures |Attach(conv, c, p)| == |conv|
    ensures forall k :: 0 <= k < |conv| && k != LastUserIndex(conv) ==> Attach(conv, c, p)[k] == conv[k]
    ensures forall k :: 0 <= k < |conv| && conv[k].role == Ai ==> Attach(conv, c, p)[k] == conv[k]
    ensures forall k :: 0 <= k < |conv| ==>
      Attach(conv, c, p)[k].role == conv[k].role && Attach(conv, c, p)[k].text == conv[k].text
  {
  }

  /** Each present annotation lands on the last USER message and replaces
      what it held; each absent one leaves its field alone. */
  lemma {:induction false} AttachReplaces(conv: seq<Message>, c: Option<Correction>, p: Option<Pronunciation>)
    requires LastUserIndex(conv) >= 0
    ensures var m := Attach(conv, c, p)[LastUserIndex(conv)];
      m.role == User &&
      (c.Some? ==> m.correction == c) && (c.None? ==> m.correction == conv[LastUserIndex(conv)].correction) &&
      (p.Some? ==> m.pronunciationFeedback == p) &&
      (p.None? ==> m.pronunciationFeedback == conv[LastUserIndex(conv)].pronunciationFeedback)
  {
  }

  /** Without a USER message the annotations are dropped. */
  lemma {:induction false} AttachDroppedWithoutUser(conv: seq<Message>, c: Option<Correction>, p: Option<Pronunciation>)
    requires forall k :: 0 <= k < |conv| ==> conv[k].role != User
    ensures Attach(conv, c, p) == conv
  {
  }

  /** Appending a message that is not a USER message does not move the last
      USER message. */
  lemma {:induction false} LastUserIndexSkipsAi(conv: seq<Message>, m: Message)
    requires m.role != User
    ensures LastUserIndex(conv + [m]) == LastUserIndex(conv)
  {
    assert (conv + [m])[..|conv|] == conv;
  }

  /** A USER message appended last is the last USER message. */
  lemma {:induction false} LastUserIndexOfAppended(conv: seq<Message>, m: Message)
    requires m.role == User
    ensures LastUserIndex(conv + [m]) == |conv|
  {
  }

  // Properties of turn completion

  /** A turn adds one message for each non-empty part: the trimmed input and
      the stripped display text. */
  lemma {:induction false} TurnLength(prev: seq<Message>, inBuf: string, outBuf: string)
    ensures |CompleteTurn(prev, inBuf, outBuf)| ==
      |TurnBase(prev)| + (if Trim(inBuf) != [] then 1 else 0) +
      (if ParseAiTurn(Trim(outBuf)).display != [] then 1 else 0)
  {
    var turn := ParseAiTurn(Trim(outBuf));
    AttachOnlyLastUser(TurnBase(prev) + UserPart(inBuf), turn.correction, turn.pronunciation);
  }

  /** The new messages are the trimmed input as a USER message and the
      display text as an AI message; the conversation before them keeps its
      roles and texts. */
  lemma {:induction false} TurnMessages(prev: seq<Message>, inBuf: string, outBuf: string)
    ensures var next := CompleteTurn(prev, inBuf, outBuf);
      var base := TurnBase(prev);
      var turn := ParseAiTurn(Trim(outBuf));
      var u := |UserPart(inBuf)|;
      |next| == |base| + u + |AiPart(turn)| &&
      (forall k :: 0 <= k < |base| ==> next[k].role == base[k].role && next[k].text == base[k].text) &&
      (Trim(inBuf) != [] ==> next[|base|].role == User && next[|base|].text == Trim(inBuf)) &&
      (turn.display != [] ==> next[|next| - 1] == AiMessage(turn.display))
  {
    var turn := ParseAiTurn(Trim(outBuf));
    var grown := TurnBase(prev) + UserPart(inBuf);
    AttachOnlyLastUser(grown, turn.correction, turn.pronunciation);
  }

  /** A new AI message never shows a block marker. */
  lemma {:induction false} TurnShowsNoMarkers(prev: seq<Message>, inBuf: string, outBuf: string)
    requires ParseAiTurn(Trim(outBuf)).display != []
    ensures var next := CompleteTurn(prev, inBuf, outBuf);
      !Contains(next[|next| - 1].text, CorrectionMarker) &&
      !Contains(next[|next| - 1].text, PronunciationMarker)
  {
    DisplayHasNoMarkers(Trim(outBuf));
  }

  /** When the input is not empty, the feedback of the turn is written onto
      the USER message of that turn. */
  lemma {:induction false} FeedbackOnOwnTurn(prev: seq<Message>, inBuf: string, outBuf: string)
    requires Trim(inBuf) != []
    ensures var next := CompleteTurn(prev, inBuf, outBuf);
      var turn := ParseAiTurn(Trim(outBuf));
      var m := next[|TurnBase(prev)|];
      m.role == User && m.text == Trim(inBuf) &&
      m.correction == turn.correction && m.pronunciationFeedback == turn.pronunciation
  {
    var turn := ParseAiTurn(Trim(outBuf));
    var base := TurnBase(prev);
    LastUserIndexOfAppended(base, UserMessage(Trim(inBuf)));
    AttachReplaces(base + UserPart(inBuf), turn.correction, turn.pronunciation);
  }

  /** When the input is empty, the feedback of the turn overwrites the
      annotations of an earlier USER message. */
  lemma {:induction false} FeedbackOverwritesEarlierTurn(prev: seq<Message>, inBuf: string, outBuf: string)
    requires Trim(inBuf) == [] && !EndsWithGreeting(prev)
    requires LastUserIndex(prev) >= 0
    requires ParseAiTurn(Trim(outBuf)).correction.Some?
    ensures CompleteTurn(prev, inBuf, outBuf)[LastUserIndex(prev)].correction ==
      ParseAiTurn(Trim(outBuf)).correction
  {
    var turn := ParseAiTurn(Trim(outBuf));
    assert TurnBase(prev) + UserPart(inBuf) == prev;
    AttachReplaces(prev, turn.correction, turn.pronunciation);
  }

  /** A turn with no USER message anywhere drops the feedback: every message
      is unannotated or kept as it was. */
  lemma {:induction false} FeedbackDroppedWithoutUser(prev: seq<Message>, inBuf: string, outBuf: string)
    requires Trim(inBuf) == []
    requires forall k :: 0 <= k < |TurnBase(prev)| ==> TurnBase(prev)[k].role != User
    ensures CompleteTurn(prev, inBuf, outBuf) == TurnBase(prev) + AiPart(ParseAiTurn(Trim(outBuf)))
  {
    var turn := ParseAiTurn(Trim(outBuf));
    assert TurnBase(prev) + UserPart(inBuf) == TurnBase(prev);
    AttachDroppedWithoutUser(TurnBase(prev), turn.correction, turn.pronunciation);
  }

  /** The first turn after the greeting replaces it: the conversation holds
      only the messages of that turn. */
  lemma {:induction false} GreetingReplaced(inBuf: string, outBuf: string)
    ensures var turn := ParseAiTurn(Trim(outBuf));
      CompleteTurn(Welcome, inBuf, outBuf) ==
        Attach(UserPart(inBuf), turn.correction, turn.pronunciation) + AiPart(turn)
  {
    assert EndsWithGreeting(Welcome);
    assert [] + UserPart(inBuf) == UserPart(inBuf);
  }

  /** Without the greeting last, nothing before the turn is removed: every
      earlier message keeps its place, its role and its text. */
  lemma {:induction false} NoResetWithoutGreeting(prev: seq<Message>, inBuf: string, outBuf: string)
    requires !EndsWithGreeting(prev)
    ensures var next := CompleteTurn(prev, inBuf, outBuf);
      |next| >= |prev| &&
      forall k :: 0 <= k < |prev| ==> next[k].role == prev[k].role && next[k].text == prev[k].text
  {
    assert TurnBase(prev) == prev;
    TurnMessages(prev, inBuf, outBuf);
  }
}
