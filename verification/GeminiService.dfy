/**
 * The query facade (services/geminiService.ts). The hosted model is an
 * oracle: a total function from what is sent to what comes back, so the
 * contracts can say exactly what the model was given. Every failure is
 * absorbed here and turned into a fixed value.
 */
module GeminiService {
  import opened Types

  /** One turn of the request: a role and its text parts. */
  datatype Turn = Turn(role: Role, parts: seq<string>)

  /** A prior message as the facade receives it; its role is free text. */
  datatype HistoryEntry = HistoryEntry(role: string, text: string)

  /** What the model call produced for a chat question. */
  datatype ServiceReply =
    | Responded(text: string, chunks: Option<seq<Source>>)  // `text` is "" when the response had none
    | Failed(message: string)                              // the call threw; `message` is the error's

  /** The answer handed back to the chat screen. */
  datatype Answer = Answer(text: string, sources: seq<Source>)

  /** What a structured generation produced, already parsed. */
  datatype GenReply<T> = Generated(value: T) | GenFailed

  const NoNotes := "No hay apuntes específicos subidos."
  const NoAnswer := "No he podido generar una respuesta."
  const ContextHeader := "CONTEXTO DE CLASE (Apuntes del profesor):\n"
  const QuestionHeader := "\n\nPREGUNTA DEL ALUMNO: "
  const ApologyHead := "Lo siento, hay un problema con la conexión al tutor: "
  const ApologyTail := ". Por favor, verifica la configuración de la API Key."

  /** The exercise returned when generation fails. */
  const ErrorExercise := Exercise("Error", "No se pudo generar el ejercicio", [], "")

  /** `knowledgeBase || "No hay apuntes..."`: the notes put in the prompt. */
  function Notes(knowledge: string): (r: string)
    ensures r != ""
    ensures r == knowledge <==> knowledge != ""
    ensures knowledge == "" ==> r == NoNotes
  {
    if knowledge == "" then NoNotes else knowledge
  }

  /**
   * The text of the final user turn: the notes between the two headers,
   * then the question. `PromptTextLayout` gives the offsets.
   */
  function PromptText(prompt: string, knowledge: string): (t: string)
    ensures |t| == |ContextHeader| + |Notes(knowledge)| + |QuestionHeader| + |prompt|
    ensures ContextHeader <= t
  {
    ContextHeader + Notes(knowledge) + QuestionHeader + prompt
  }

  /** The final turn carries the notes right after the header and ends with the question. */
  lemma PromptTextLayout(prompt: string, knowledge: string)
    ensures var t, n := PromptText(prompt, knowledge), Notes(knowledge);
      && t[|ContextHeader|..|ContextHeader| + |n|] == n
      && t[|ContextHeader| + |n|..|ContextHeader| + |n| + |QuestionHeader|] == QuestionHeader
      && t[|t| - |prompt|..] == prompt
  {
    var n := Notes(knowledge);
    var h := |ContextHeader|;
    var t := ContextHeader + n + QuestionHeader + prompt;
    var rest := n + (QuestionHeader + prompt);
    assert t == ContextHeader + rest;
    assert t[h..] == rest;
    assert rest[..|n|] == n;
    assert rest[|n|..][..|QuestionHeader|] == QuestionHeader;
  }

  /** A prior message becomes a `user` turn exactly when its role is `user`. */
  function HistoryTurn(m: HistoryEntry): (t: Turn)
    ensures t.role == User <==> m.role == "user"
    ensures t.parts == [m.text]
  {
    Turn(if m.role == "user" then User else Model, [m.text])
  }

  /** `contents`: the history turns in order, then the question turn. */
  function Contents(prompt: string, knowledge: string, history: seq<HistoryEntry>): (r: seq<Turn>)
    ensures |r| == |history| + 1
    ensures forall i :: 0 <= i < |history| ==>
      (r[i].role == User <==> history[i].role == "user") && r[i].parts == [history[i].text]
    ensures r[|history|].role == User && r[|history|].parts == [PromptText(prompt, knowledge)]
  {
    seq(|history|, i requires 0 <= i < |history| => HistoryTurn(history[i]))
      + [Turn(User, [PromptText(prompt, knowledge)])]
  }

  /** The apology returned when the call throws: the error's message between the fixed head and tail. */
  function Apology(message: string): (r: string)
    ensures |r| == |ApologyHead| + |message| + |ApologyTail|
    ensures ApologyHead + message <= r
    ensures r[|r| - |ApologyTail|..] == ApologyTail
  {
    ApologyHead + message + ApologyTail
  }

  /**
   * How a reply becomes an answer: empty text becomes the fixed fallback,
   * missing grounding data an empty source list, and a failure the apology
   * with no sources.
   */
  function AnswerOf(reply: ServiceReply): (r: Answer)
    ensures r.text != ""
    ensures reply.Responded? ==>
      && r.text == (if reply.text != "" then reply.text else NoAnswer)
      && r.sources == (if reply.chunks.Some? then reply.chunks.value else [])
    ensures reply.Failed? ==> r.sources == [] && ApologyHead + reply.message <= r.text
  {
    match reply
    case Responded(text, chunks) =>
      Answer(if text != "" then text else NoAnswer, if chunks.Some? then chunks.value else [])
    case Failed(message) =>
      Answer(Apology(message), [])
  }

  /** `askGemini`: send the contents once and map whatever comes back. */
  function AskGemini(prompt: string, knowledge: string, history: seq<HistoryEntry>,
                     call: seq<Turn> -> ServiceReply): (r: Answer)
    ensures r == AnswerOf(call(Contents(prompt, knowledge, history)))
    ensures r.text != ""
    ensures call(Contents(prompt, knowledge, history)).Failed? ==> r.sources == []
  {
    AnswerOf(call(Contents(prompt, knowledge, history)))
  }

  /** `generateQuiz`: the generated questions, or none when generation fails. */
  function GenerateQuiz(knowledge: string, generate: string -> GenReply<seq<QuizQuestion>>): (r: seq<QuizQuestion>)
    ensures generate(knowledge).GenFailed? ==> r == []
    ensures generate(knowledge).Generated? ==> r == generate(knowledge).value
  {
    match generate(knowledge)
    case Generated(qs) => qs
    case GenFailed => []
  }

  /** `generateExercise`: the generated exercise, or the error sentinel. */
  function GenerateExercise(knowledge: string, generate: string -> GenReply<Exercise>): (r: Exercise)
    ensures generate(knowledge).GenFailed? ==> r.title == "Error" && r.steps == [] && r.solution == ""
    ensures generate(knowledge).Generated? ==> r == generate(knowledge).value
  {
    match generate(knowledge)
    case Generated(ex) => ex
    case GenFailed => ErrorExercise
  }
}
