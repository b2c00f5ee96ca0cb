/**
 * The tutoring chat screen (components/ChatInterface.tsx). `handleSend` is
 * split at its one `await`: `Accept` runs up to the call, `Complete` runs
 * after it; `Send` runs both with the service in between.
 */
module Chat {
  import opened Types
  import opened Text
  import opened GeminiService

  const Welcome := "¡Bienvenido al seminario de Hacienda Pública! Soy tu tutor. ¿Qué concepto quieres que analicemos hoy?"
  const ConnectionError := "Error de conexión con el servidor educativo."

  /** The role string a chat message carries at run time. */
  function RoleName(r: Role): (name: string)
    ensures name == "user" <==> r == User
  {
    match r
    case User => "user"
    case Model => "model"
  }

  /** The transcript as the service's history parameter sees it. */
  function AsHistory(messages: seq<ChatMessage>): (h: seq<HistoryEntry>)
    ensures |h| == |messages|
    ensures forall i :: 0 <= i < |messages| ==> h[i].role == RoleName(messages[i].role) && h[i].text == messages[i].text
  {
    seq(|messages|, i requires 0 <= i < |messages| => HistoryEntry(RoleName(messages[i].role), messages[i].text))
  }

  /**
   * The service rebuilds every transcript message as a turn with the same
   * role and text, in transcript order, before the question turn.
   */
  lemma HistoryTurnsMatchTranscript(prompt: string, knowledge: string, messages: seq<ChatMessage>)
    ensures var c := Contents(prompt, knowledge, AsHistory(messages));
      |c| == |messages| + 1 && forall i :: 0 <= i < |messages| ==> c[i] == Turn(messages[i].role, [messages[i].text])
  {
    var c := Contents(prompt, knowledge, AsHistory(messages));
    forall i | 0 <= i < |messages| ensures c[i] == Turn(messages[i].role, [messages[i].text]) {
      assert AsHistory(messages)[i].role == RoleName(messages[i].role);
      assert c[i].role == messages[i].role by {
        match messages[i].role
        case User =>
        case Model => assert RoleName(Model) != "user";
      }
    }
  }

  class ChatSession {
    var messages: seq<ChatMessage>
    var sources: seq<Source>
    var input: string
    var isLoading: bool

    /** The transcript opens with the tutor's welcome and nothing else. */
    constructor ()
      ensures messages == [ChatMessage(Model, Welcome)]
      ensures sources == [] && input == "" && !isLoading
    {
      messages := [ChatMessage(Model, Welcome)];
      sources := [];
      input := "";
      isLoading := false;
    }

    /** Typing in the text field. */
    method SetInput(text: string)
      modifies this`input
      ensures input == text
    {
      input := text;
    }

    /**
     * The part of `handleSend` before the call: with blank input or while
     * loading nothing changes; otherwise the user's message is appended, the
     * field cleared and loading set. The question and the transcript as it
     * was before the new message are handed on for the call.
     */
    method Accept() returns (accepted: bool, prompt: string, history: seq<ChatMessage>)
      modifies this`messages, this`input, this`isLoading
      ensures accepted == (!IsBlank(old(input)) && !old(isLoading))
      ensures !accepted ==> messages == old(messages) && input == old(input) && isLoading == old(isLoading)
      ensures accepted ==>
        && messages == old(messages) + [ChatMessage(User, old(input))]
        && input == "" && isLoading
        && prompt == old(input) && history == old(messages)
    {
      var text := input;
      if IsBlank(text) || isLoading {
        return false, "", [];
      }
      history := messages;
      prompt := text;
      messages := messages + [ChatMessage(User, text)];
      input := "";
      isLoading := true;
      accepted := true;
    }

    /**
     * The part after the call: exactly one model message is appended (the
     * answer, or the connection error when the awaited call threw), sources
     * grow only by a non-empty source list, and loading ends.
     */
    method Complete(outcome: Option<Answer>)
      modifies this`messages, this`sources, this`isLoading
      ensures messages == old(messages) + [ChatMessage(Model, if outcome.Some? then outcome.value.text else ConnectionError)]
      ensures sources == if outcome.Some? && |outcome.value.sources| > 0
                         then old(sources) + outcome.value.sources else old(sources)
      ensures !isLoading
    {
      match outcome {
        case Some(result) =>
          messages := messages + [ChatMessage(Model, result.text)];
          if |result.sources| > 0 {
            sources := sources + result.sources;
          }
        case None =>
          messages := messages + [ChatMessage(Model, ConnectionError)];
      }
      isLoading := false;
    }

    /**
     * `handleSend`: an accepted send appends exactly the user's message and
     * the service's answer to it, never an empty model message, and the
     * earlier transcript and sources stay as prefixes.
     */
    method Send(knowledge: string, call: seq<Turn> -> ServiceReply) returns (accepted: bool)
      modifies this`messages, this`sources, this`input, this`isLoading
      ensures accepted == (!IsBlank(old(input)) && !old(isLoading))
      ensures old(messages) <= messages && old(sources) <= sources
      ensures !accepted ==>
        && messages == old(messages) && sources == old(sources)
        && input == old(input) && isLoading == old(isLoading)
      ensures accepted ==>
        var answer := AskGemini(old(input), knowledge, AsHistory(old(messages)), call);
        && messages == old(messages) + [ChatMessage(User, old(input)), ChatMessage(Model, answer.text)]
        && answer.text != ""
        && sources == old(sources) + answer.sources
        && input == "" && !isLoading
    {
      var prompt, history;
      accepted, prompt, history := Accept();
      if accepted {
        var result := AskGemini(prompt, knowledge, AsHistory(history), call);
        assert result.text != "";
        Complete(Some(result));
      }
    }
  }
}
