/** The data model of the tutoring client: conversation messages with their
    feedback annotations, the connection status, saved sessions and goals. */
module Types {

  datatype Option<+T> = None | Some(value: T)

  /** The two authors of a message. */
  datatype ConversationRole = User | Ai

  /** There are exactly two roles. */
  lemma RolesExhaustive(r: ConversationRole)
    ensures r == User || r == Ai
    ensures User != Ai
  {
  }

  /** A grammar correction. The learner's original sentence is not kept. */
  datatype Correction = Correction(corrected: string, explanation: string, example: string)

  /** A pronunciation score with feedback. The score is any integer: no range is enforced. */
  datatype Pronunciation = Pronunciation(score: int, feedback: string)

  /** One turn of the transcript. */
  datatype Message = Message(
    role: ConversationRole,
    text: string,
    correction: Option<Correction>,
    pronunciationFeedback: Option<Pronunciation>)

  /** A message as the transcript first records it, without annotations. */
  function UserMessage(text: string): Message
  {
    Message(User, text, None, None)
  }

  function AiMessage(text: string): Message
  {
    Message(Ai, text, None, None)
  }

  /** The state of the connection to the conversational service. */
  datatype ConnectionStatus = Disconnected | Connecting | Connected | Error

  const AllStatuses: seq<ConnectionStatus> := [Disconnected, Connecting, Connected, Error]

  /** There are exactly four statuses, all distinct, and every status is one of them. */
  lemma StatusesExhaustive(s: ConnectionStatus)
    ensures s in AllStatuses
    ensures |AllStatuses| == 4
    ensures forall i, j :: 0 <= i < j < |AllStatuses| ==> AllStatuses[i] != AllStatuses[j]
  {
  }

  /** A saved practice session. The duration is in seconds and may be absent. */
  datatype ConversationSession = ConversationSession(
    id: string,
    timestamp: int,
    language: string,
    nativeLanguage: Option<string>,
    topic: Option<string>,
    voice: Option<string>,
    isTtsEnabled: Option<bool>,
    duration: Option<int>,
    messages: seq<Message>)

  datatype GoalType = Time | Conversations

  datatype GoalPeriod = Daily | Weekly

  datatype Goal = Goal(goalType: GoalType, period: GoalPeriod, target: int)
}
