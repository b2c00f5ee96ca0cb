/**
 * The records shared by the knowledge store, the study modes and the
 * service facade (types.ts), plus the Option wrapper used for values that
 * may be absent (`null`, a missing field, a handler that threw).
 */
module Types {

  datatype Option<+T> = None | Some(value: T)

  /** One unit of course material. `timestamp` is the creation time in ms. */
  datatype KnowledgeItem = KnowledgeItem(id: string, title: string, content: string, timestamp: int)

  /** Who wrote a chat message: the student or the tutor model. */
  datatype Role = User | Model

  datatype ChatMessage = ChatMessage(role: Role, text: string)

  /** A multiple-choice question as the generator returns it. */
  datatype QuizQuestion = QuizQuestion(question: string, options: seq<string>, correctAnswerIndex: int, explanation: string)

  /** A worked numeric exercise as the generator returns it. */
  datatype Exercise = Exercise(title: string, statement: string, steps: seq<string>, solution: string)

  /** A grounding chunk the service cites (a web page). */
  datatype Source = Source(uri: string, title: string)
}
