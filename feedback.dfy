/** The feedback-block parser: a completed AI turn carries its reply text
    followed by a pronunciation block and, when the learner made a grammar
    mistake, a correction block. Parsing strips the correction block first,
    then the pronunciation block, exactly as App.tsx does with `split`. */
module Feedback {
  import opened Types
  import opened Strings

  const CorrectionMarker: string := "CORRECTION_BLOCK::"
  const PronunciationMarker: string := "PRONUNCIATION_BLOCK::"
  const FieldSeparator: string := "|"

  /** What one AI turn yields: the text shown and the annotations found. */
  datatype ParsedTurn = ParsedTurn(
    display: string,
    correction: Option<Correction>,
    pronunciation: Option<Pronunciation>)

  /** The trimmed `|`-separated fields of a trimmed block payload. */
  function Fields(payload: string): seq<string>
  {
    TrimAll(Split(Trim(payload), FieldSeparator))
  }

  /** A correction needs exactly four fields and keeps fields 1 to 3. */
  function CorrectionOf(fields: seq<string>): Option<Correction>
  {
    if |fields| == 4 then Some(Correction(fields[1], fields[2], fields[3])) else None
  }

  /** A pronunciation record needs exactly two fields and a first field that
      `parseInt` reads; the score is passed on unclamped. */
  function PronunciationOf(fields: seq<string>): Option<Pronunciation>
  {
    if |fields| == 2 && ParseInt(fields[0]).Some?
    then Some(Pronunciation(ParseInt(fields[0]).value, fields[1]))
    else None
  }

  /** The text before the first occurrence of `marker` and the second
      `split` segment, which ends at a second occurrence if there is one. */
  function Cut(text: string, marker: string): (string, string)
    requires |marker| > 0 && Contains(text, marker)
  {
    var parts := Split(text, marker);
    SplitSecond(text, marker);
    (parts[0], parts[1])
  }

  /** Step 1: cut the text at the first correction marker. */
  function StripCorrection(text: string): (string, Option<Correction>)
  {
    if !Contains(text, CorrectionMarker) then (text, None)
    else
      var (before, payload) := Cut(text, CorrectionMarker);
      (Trim(before), CorrectionOf(Fields(payload)))
  }

  /** Step 2: cut what is left at the first pronunciation marker. */
  function StripPronunciation(text: string): (string, Option<Pronunciation>)
  {
    if !Contains(text, PronunciationMarker) then (text, None)
    else
      var (before, payload) := Cut(text, PronunciationMarker);
      (Trim(before), PronunciationOf(Fields(payload)))
  }

  /** The parse of one completed AI turn. */
  function ParseAiTurn(text: string): ParsedTurn
  {
    var (working, correction) := StripCorrection(text);
    var (display, pronunciation) := StripPronunciation(working);
    ParsedTurn(display, correction, pronunciation)
  }

  /** A block's field count is one more than the separators in its trimmed
      payload. */
  lemma {:induction false} FieldCount(payload: string)
    ensures |Fields(payload)| == CountChar(Trim(payload), '|') + 1
  {
    SplitCount(Trim(payload), '|');
  }

  /** A correction exists exactly when the payload has three separators. */
  lemma {:induction false} CorrectionNeedsFourFields(payload: string)
    ensures CorrectionOf(Fields(payload)).Some? <==> CountChar(Trim(payload), '|') == 3
  {
    FieldCount(payload);
  }

  /** A pronunciation record exists exactly when the payload has one
      separator and its first field parses as an integer. */
  lemma {:induction false} PronunciationNeedsTwoFields(payload: string)
    ensures PronunciationOf(Fields(payload)).Some? <==>
      CountChar(Trim(payload), '|') == 1 && ParseInt(Fields(payload)[0]).Some?
  {
    FieldCount(payload);
  }

  /** The first part is the text before the first occurrence of `marker`;
      the second runs from the end of that occurrence to the next one, or to
      the end of the text. */
  lemma {:induction false} CutShape(text: string, marker: string)
    requires |marker| > 0 && Contains(text, marker)
    ensures Cut(text, marker) ==
      (text[..IndexOf(text, marker)],
       Segment(text[IndexOf(text, marker) + |marker|..], marker))
  {
    SplitFirst(text, marker);
    SplitSecond(text, marker);
  }

  /** A block laid out as the system prompt asks: text `a` whose first
      occurrence of `marker` is the one placed after it, and a payload `b`
      without a further marker, cuts back into exactly `a` and `b`. */
  lemma {:induction false} CutLayout(a: string, marker: string, b: string)
    requires |marker| > 0 && IndexOf(a + marker, marker) == |a|
    requires !Contains(b, marker)
    ensures Contains(a + marker + b, marker)
    ensures Cut(a + marker + b, marker) == (a, b)
  {
    var text := a + marker + b;
    IndexFromExtend(a + marker, b, marker, 0);
    assert IndexOf(text, marker) == |a|;
    CutShape(text, marker);
    assert text[..|a|] == a;
    assert text[|a| + |marker|..] == b;
  }

  /** A turn laid out as the system prompt asks, reply first, then the
      pronunciation block, then the correction block, yields the trimmed
      reply, the pronunciation record read from its payload and the
      correction read from its payload, whatever white space surrounds them. */
  lemma {:induction false} CanonicalTurn(reply: string, pron: string, corr: string)
    requires IndexOf(reply + PronunciationMarker, PronunciationMarker) == |reply|
    requires !Contains(pron, PronunciationMarker)
    requires IndexOf(reply + PronunciationMarker + pron + CorrectionMarker, CorrectionMarker)
      == |reply + PronunciationMarker + pron|
    requires !Contains(corr, CorrectionMarker)
    ensures ParseAiTurn(reply + PronunciationMarker + pron + CorrectionMarker + corr) ==
      ParsedTurn(Trim(reply), CorrectionOf(Fields(corr)), PronunciationOf(Fields(pron)))
  {
    CutLayout(reply + PronunciationMarker + pron, CorrectionMarker, corr);
    TrimmedPronunciationBlock(reply, pron);
  }

  /** The reply and the pronunciation block left once the correction block
      is cut off and the rest trimmed: the trimmed reply and the record read
      from the payload. */
  lemma {:induction false} TrimmedPronunciationBlock(reply: string, pron: string)
    requires IndexOf(reply + PronunciationMarker, PronunciationMarker) == |reply|
    requires !Contains(pron, PronunciationMarker)
    ensures StripPronunciation(Trim(reply + PronunciationMarker + pron)) ==
      (Trim(reply), PronunciationOf(Fields(pron)))
  {
    var o, k := TrimOffset(reply), SpaceStart(pron, 0, |pron|);
    var front, back := reply[o..], pron[..k];
    TrimAround(reply, PronunciationMarker, pron);
    IndexOfSuffix(reply + PronunciationMarker, PronunciationMarker, o);
    assert (reply + PronunciationMarker)[o..] == front + PronunciationMarker;
    NotContainsSlice(pron, PronunciationMarker, 0, k);
    CutLayout(front, PronunciationMarker, back);
    TrimFront(reply);
    TrimBack(pron);
  }

  /** A turn with no correction block: the reply and the pronunciation block. */
  lemma {:induction false} TurnWithoutCorrection(reply: string, pron: string)
    requires IndexOf(reply + PronunciationMarker, PronunciationMarker) == |reply|
    requires !Contains(pron, PronunciationMarker)
    requires !Contains(reply + PronunciationMarker + pron, CorrectionMarker)
    ensures ParseAiTurn(reply + PronunciationMarker + pron) ==
      ParsedTurn(Trim(reply), None, PronunciationOf(Fields(pron)))
  {
    CutLayout(reply, PronunciationMarker, pron);
  }

  /** A score written as a word is dropped together with its feedback. */
  lemma {:induction false} WordScoreDropped(payload: string)
    requires Fields(payload)[0] != []
    requires var c := Fields(payload)[0][0];
      !IsSpace(c) && !IsDigit(c) && c != '-' && c != '+'
    ensures PronunciationOf(Fields(payload)) == None
  {
    ParseIntRejectsWord(Fields(payload)[0]);
  }

  /** A score followed by text in the same field is read up to the text. */
  lemma {:induction false} ScoreReadUpToText(payload: string, digits: string, rest: string, note: string)
    requires |digits| > 0 && AllDigits(digits)
    requires rest != [] && !IsDigit(rest[0])
    requires Fields(payload) == [digits + rest, note]
    ensures PronunciationOf(Fields(payload)) == Some(Pronunciation(DigitsValue(digits), note))
  {
    ParseIntIgnoresTail(digits, rest);
  }

  /** Stripping never leaves `marker` in the text it keeps. */
  lemma {:induction false} StripRemovesMarker(text: string, marker: string)
    requires |marker| > 0 && Contains(text, marker)
    ensures !Contains(Trim(Cut(text, marker).0), marker)
  {
    CutShape(text, marker);
    BeforeFirstClean(text, marker);
    NotContainsTrim(text[..IndexOf(text, marker)], marker);
  }

  /** The text kept by either step contains no marker the input did not
      already lack: a block, well formed or not, never reaches the screen. */
  lemma {:induction false} StripKeepsClean(text: string, marker: string)
    requires |marker| > 0 && Contains(text, marker)
    ensures forall m :: !Contains(text, m) ==> !Contains(Trim(Cut(text, marker).0), m)
  {
    CutShape(text, marker);
    forall m | !Contains(text, m)
      ensures !Contains(Trim(Cut(text, marker).0), m)
    {
      NotContainsSlice(text, m, 0, IndexOf(text, marker));
      NotContainsTrim(text[..IndexOf(text, marker)], m);
    }
  }

  /** The displayed text never contains either marker. */
  lemma {:induction false} DisplayHasNoMarkers(text: string)
    ensures !Contains(ParseAiTurn(text).display, CorrectionMarker)
    ensures !Contains(ParseAiTurn(text).display, PronunciationMarker)
  {
    var working := StripCorrection(text).0;
    if Contains(text, CorrectionMarker) {
      StripRemovesMarker(text, CorrectionMarker);
    }
    assert !Contains(working, CorrectionMarker);
    if Contains(working, PronunciationMarker) {
      StripRemovesMarker(working, PronunciationMarker);
      StripKeepsClean(working, PronunciationMarker);
    }
  }

  /** A text without markers is shown as it is, without annotations. */
  lemma PlainReply(text: string)
    requires !Contains(text, CorrectionMarker) && !Contains(text, PronunciationMarker)
    ensures ParseAiTurn(text) == ParsedTurn(text, None, None)
  {
  }

  /** A pronunciation block placed after the correction block is swallowed
      with the correction payload: no pronunciation record is produced. */
  lemma {:induction false} PronunciationAfterCorrectionSwallowed(text: string)
    requires IndexOf(text, CorrectionMarker) >= 0
    requires !Contains(text[..IndexOf(text, CorrectionMarker)], PronunciationMarker)
    ensures ParseAiTurn(text).pronunciation.None?
  {
    CutShape(text, CorrectionMarker);
    NotContainsTrim(text[..IndexOf(text, CorrectionMarker)], PronunciationMarker);
  }
}
