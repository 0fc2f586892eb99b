/** The history list (components/ConversationHistory.tsx): how a stored
    duration is written, the newest-first order of the list, the preview of
    each entry, and the state behind it: the saved sessions and the one
    selected for reading. */
module ConversationHistory {
  import opened Types
  import opened Strings
  import opened Ranking

  /** The whole minutes and the remaining seconds of a stored duration; none
      when it is missing or less than one second. */
  function DurationParts(seconds: Option<int>): (r: Option<(int, int)>)
    ensures r.None? <==> seconds.None? || seconds.value < 1
    ensures r.Some? ==> r.value.0 * 60 + r.value.1 == seconds.value
    ensures r.Some? ==> 0 <= r.value.1 < 60 && r.value.0 >= 0
  {
    if seconds.None? || seconds.value < 1 then None
    else Some((seconds.value / 60, seconds.value % 60))
  }

  /** formatDuration: "<m> min, <s> sec", or nothing. */
  function FormatDuration(seconds: Option<int>): Option<string>
  {
    match DurationParts(seconds)
    case None => None
    case Some((m, r)) => Some(IntToDecimal(m) + " min, " + IntToDecimal(r) + " sec")
  }

  /** The written duration starts with its minutes, which `parseInt` reads
      back. */
  lemma {:induction false} DurationTextReadsBack(seconds: int)
    requires seconds >= 1
    ensures FormatDuration(Some(seconds)).Some?
    ensures ParseInt(FormatDuration(Some(seconds)).value) == Some(seconds / 60)
  {
    var m := seconds / 60;
    var tail := " min, " + IntToDecimal(seconds % 60) + " sec";
    assert FormatDuration(Some(seconds)).value == NatToDecimal(m) + tail;
    assert tail[0] == ' ';
    ParseIntIgnoresTail(NatToDecimal(m), tail);
    DigitsValueOfDecimal(m);
  }

  /** The list order: a copy sorted by timestamp, newest first. */
  function Timestamp(s: ConversationSession): int
  {
    s.timestamp
  }

  function NewestFirst(sessions: seq<ConversationSession>): seq<ConversationSession>
  {
    Sort(sessions, Timestamp)
  }

  /** The list shows every session once and newest first. */
  lemma {:induction false} NewestFirstOrdered(sessions: seq<ConversationSession>)
    ensures var r := NewestFirst(sessions);
      multiset(r) == multiset(sessions) &&
      forall i, j :: 0 <= i < j < |r| ==> r[i].timestamp >= r[j].timestamp
  {
    var r := NewestFirst(sessions);
    assert Descending(r, Timestamp);
    forall i, j | 0 <= i < j < |r|
      ensures r[i].timestamp >= r[j].timestamp
    {
      assert Timestamp(r[i]) >= Timestamp(r[j]);
    }
  }

  /** A list that is already newest first is shown as it is: the copy is
      sorted stably, so even sessions with equal timestamps keep their
      places. */
  lemma {:induction false} NewestFirstOfOrdered(sessions: seq<ConversationSession>)
    requires forall i, j :: 0 <= i < j < |sessions| ==> sessions[i].timestamp >= sessions[j].timestamp
    ensures NewestFirst(sessions) == sessions
  {
    SortKeepsOrdered(sessions, Timestamp);
  }

  const EmptyPreview: string := "Empty conversation"

  /** The preview: the first message's text, or the empty-conversation text
      when there is no first message or its text is empty. */
  function Preview(s: ConversationSession): (p: string)
    ensures p != []
    ensures |s.messages| > 0 && s.messages[0].text != [] ==> p == s.messages[0].text
    ensures (|s.messages| == 0 || s.messages[0].text == []) ==> p == EmptyPreview
  {
    if |s.messages| > 0 && s.messages[0].text != [] then s.messages[0].text else EmptyPreview
  }

  /** The topic badge: the topic, or "General" when there is none. */
  function TopicBadge(s: ConversationSession): (b: string)
    ensures b != []
    ensures s.topic.Some? && s.topic.value != [] ==> b == s.topic.value
  {
    if s.topic.Some? && s.topic.value != [] then s.topic.value else "General"
  }

  class HistoryView {
    /** The saved sessions, shared with the app. */
    var sessions: seq<ConversationSession>
    /** The session opened for reading, if any. */
    var selected: Option<ConversationSession>

    constructor (sessions: seq<ConversationSession>)
      ensures this.sessions == sessions && selected == None
    {
      this.sessions := sessions;
      selected := None;
    }

    /** handleClearHistory: after a confirmation, every session and the
        selection are gone; without one nothing changes. */
    method ClearHistory(confirmed: bool)
      modifies this
      ensures confirmed ==> sessions == [] && selected == None
      ensures !confirmed ==> sessions == old(sessions) && selected == old(selected)
    {
      if confirmed {
        sessions := [];
        selected := None;
      }
    }

    /** Clicking an entry of the list opens it. */
    method Select(s: ConversationSession)
      requires s in sessions
      modifies this`selected
      ensures selected == Some(s)
    {
      selected := Some(s);
    }

    /** The back button returns to the list. */
    method Back()
      modifies this`selected
      ensures selected == None
    {
      selected := None;
    }

    /** What the list shows, in its order. */
    function Listed(): (r: seq<ConversationSession>)
      reads this
      ensures multiset(r) == multiset(sessions)
    {
      NewestFirst(sessions)
    }
  }
}
