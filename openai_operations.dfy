/**
 * The per-channel conversation window of the bot (`OpenAIOperations`): a list
 * of role/content turns seeded with one system turn, to which every call
 * appends a user turn, removes the turns at indices 1 and 2 when the window is
 * over its bound, consults the provider, and appends the assistant's answer.
 *
 * The provider is an oracle: a total function from the request the bot sends
 * to what comes back (a failure, or the text fields of the response).
 */
module OpenAI {
  import opened Util
  import opened Text

  datatype Role = System | User | Assistant

  datatype Turn = Turn(role: Role, content: string)

  /** The request sent to the provider. */
  datatype Request =
    | ResponsesRequest(model: string, input: string)   // `responses.create`: only the new text
    | ChatRequest(model: string, messages: seq<Turn>)  // `chat.completions.create`: the whole window
    | CompletionRequest(model: string, prompt: string) // `completions.create`

  /**
   * What the provider call yields: `Failure` when it throws, otherwise the text
   * fields of the response in the order the code probes them with `||`
   * (a missing field is the empty string: both are falsy).
   */
  datatype ProviderReply = Failure | Reply(candidates: seq<string>)

  const NoResponse: string := "Sem resposta do modelo."
  const Apology: string := "Sorry, something went wrong. Please try again later."
  const CompletionModel: string := "text-davinci-003"

  /** Models served by the newer `responses` endpoint; every other model uses chat completions. */
  predicate UsesResponsesEndpoint(model: string) {
    StartsWith(model, "gpt-5") || StartsWith(model, "gpt-4.1") || StartsWith(model, "gpt-4o")
  }

  /** The default model of the bot and plain GPT-4 use chat completions; GPT-4o and GPT-5 models do not. */
  lemma EndpointExamples()
    ensures !UsesResponsesEndpoint("gpt-3.5-turbo") && !UsesResponsesEndpoint("gpt-4")
    ensures UsesResponsesEndpoint("gpt-4o-mini") && UsesResponsesEndpoint("gpt-5") && UsesResponsesEndpoint("gpt-4.1-nano")
  {
    assert "gpt-4o-mini"[..6] == "gpt-4o";
    assert "gpt-4.1-nano"[..7] == "gpt-4.1";
    assert "gpt-3.5-turbo"[..5][4] == '3';
  }

  /**
   * The `a || b || ... || "Sem resposta do modelo."` chain: the first non-empty
   * candidate, or the fixed notice when every candidate is empty.
   */
  function FirstNonEmpty(candidates: seq<string>): (r: string)
    ensures r != ""
    ensures (forall i :: 0 <= i < |candidates| ==> candidates[i] == "") ==> r == NoResponse
    ensures forall i :: 0 <= i < |candidates| && candidates[i] != "" && (forall j :: 0 <= j < i ==> candidates[j] == "")
              ==> r == candidates[i]
    decreases |candidates|
  {
    if candidates == [] then NoResponse
    else if candidates[0] != "" then candidates[0]
    else FirstNonEmpty(candidates[1..])
  }

  /** The text a call returns for a provider reply: the apology of the `catch` block, or the first non-empty text. */
  function ResponseText(reply: ProviderReply): string {
    match reply
    case Failure => Apology
    case Reply(candidates) => FirstNonEmpty(candidates)
  }

  /**
   * `check_history_length`: when the window holds more than `2 * historyLength + 1`
   * turns, `splice(1, 2)` removes the entries at indices 1 and 2 (as many of them
   * as exist); otherwise the window is left alone.
   */
  function TrimHistory(messages: seq<Turn>, historyLength: nat): (r: seq<Turn>)
    ensures |messages| <= 2 * historyLength + 1 ==> r == messages
    ensures |messages| > 2 * historyLength + 1 ==>
              |r| == (if |messages| >= 3 then |messages| - 2 else 1)
              && r[0] == messages[0]
              && forall k :: 1 <= k < |r| ==> r[k] == messages[k + 2]
  {
    if |messages| > historyLength * 2 + 1 then
      messages[..1] + messages[Min(3, |messages|)..]
    else
      messages
  }

  /** The window after the user turn is pushed and trimmed, which is what the chat endpoint is sent. */
  function Pending(history: seq<Turn>, historyLength: nat, text: string): seq<Turn> {
    TrimHistory(history + [Turn(User, text)], historyLength)
  }

  /** The outcome of one `make_openai_call`: what was sent, what is returned, and the window afterwards. */
  datatype CallResult = CallResult(request: Request, response: string, history: seq<Turn>)

  /**
   * `make_openai_call` as a function of the window before the call: push the
   * user turn, trim, send the request for the model's endpoint, then either
   * push the assistant's answer or, if the provider fails, return the apology.
   */
  function Call(history: seq<Turn>, model: string, historyLength: nat, text: string,
                provider: Request -> ProviderReply): CallResult
  {
    var pending := Pending(history, historyLength, text);
    var request := if UsesResponsesEndpoint(model) then ResponsesRequest(model, text) else ChatRequest(model, pending);
    match provider(request)
    case Failure => CallResult(request, Apology, pending)
    case Reply(candidates) =>
      var response := FirstNonEmpty(candidates);
      CallResult(request, response, pending + [Turn(Assistant, response)])
  }

  /**
   * The user turn is pushed and the window trimmed before the provider is
   * consulted: the chat endpoint receives the trimmed window, the responses
   * endpoint only the new text; both endpoints are reached with that request.
   */
  lemma CallRequest(history: seq<Turn>, model: string, historyLength: nat, text: string,
                    provider: Request -> ProviderReply)
    ensures var c := Call(history, model, historyLength, text, provider);
      (UsesResponsesEndpoint(model) ==> c.request == ResponsesRequest(model, text))
      && (!UsesResponsesEndpoint(model) ==> c.request == ChatRequest(model, Pending(history, historyLength, text)))
  {
  }

  /**
   * On success exactly one assistant turn is appended after the trimmed window,
   * holding the returned text, which is never empty; on failure the apology is
   * returned and the trimmed window, user turn included, is all that remains.
   */
  lemma CallOutcome(history: seq<Turn>, model: string, historyLength: nat, text: string,
                    provider: Request -> ProviderReply)
    ensures var c := Call(history, model, historyLength, text, provider);
      var pending := Pending(history, historyLength, text);
      (provider(c.request).Failure? ==> c.response == Apology && c.history == pending)
      && (provider(c.request).Reply? ==>
            c.response != "" && c.response == ResponseText(provider(c.request))
            && c.history == pending + [Turn(Assistant, c.response)])
  {
  }

  /** With at least one pair kept, the user turn survives the trim as the last turn of the window. */
  lemma {:induction false} UserTurnSurvivesTrim(history: seq<Turn>, historyLength: nat, text: string)
    requires historyLength >= 1 && |history| >= 1
    ensures var pending := Pending(history, historyLength, text);
      |pending| >= 2 && pending[|pending| - 1] == Turn(User, text)
  {
    var m := history + [Turn(User, text)];
    var pending := Pending(history, historyLength, text);
    if |m| > 2 * historyLength + 1 {
      assert |m| >= 4;
      assert pending[|pending| - 1] == m[|pending| - 1 + 2];
    }
  }

  /** With a window of zero pairs the trim evicts the user turn it has just pushed. */
  lemma ZeroHistoryEvictsUserTurn(systemTurn: Turn, text: string)
    ensures Pending([systemTurn], 0, text) == [systemTurn]
  {
  }

  /** No call removes or alters the system turn at index 0. */
  lemma {:induction false} CallKeepsFirstTurn(history: seq<Turn>, model: string, historyLength: nat, text: string,
                                              provider: Request -> ProviderReply)
    requires |history| >= 1
    ensures var c := Call(history, model, historyLength, text, provider);
      |c.history| >= 1 && c.history[0] == history[0]
  {
    var m := history + [Turn(User, text)];
    assert m[0] == history[0];
  }

  /**
   * The window stays bounded: if it holds at most `2h + 2` turns before a call,
   * it holds at most `2h + 1` right after the trim and at most `2h + 2` after the call.
   */
  lemma {:induction false} CallBounded(history: seq<Turn>, model: string, historyLength: nat, text: string,
                                       provider: Request -> ProviderReply)
    requires 1 <= |history| <= 2 * historyLength + 2
    ensures |Pending(history, historyLength, text)| <= 2 * historyLength + 1
    ensures |Call(history, model, historyLength, text, provider).history| <= 2 * historyLength + 2
  {
    var m := history + [Turn(User, text)];
    assert |m| == |history| + 1;
  }

  /**
   * The trim removes positions, not pairs. With a window of one pair, a failed
   * call leaves its user turn unanswered; two answered calls later the trim has
   * removed both earlier user turns and kept the assistant turn that answered
   * the second, so the window no longer alternates user and assistant.
   */
  lemma FailedCallMisalignsPairs(system: string, model: string, u1: string, u2: string, u3: string,
                                 a2: string, a3: string, fails: Request -> ProviderReply,
                                 answers2: Request -> ProviderReply, answers3: Request -> ProviderReply)
    requires a2 != "" && a3 != ""
    requires forall r :: fails(r) == Failure
    requires forall r :: answers2(r) == Reply([a2])
    requires forall r :: answers3(r) == Reply([a3])
    ensures var h1 := Call([Turn(System, system)], model, 1, u1, fails).history;
      var h2 := Call(h1, model, 1, u2, answers2).history;
      var h3 := Call(h2, model, 1, u3, answers3).history;
      h1 == [Turn(System, system), Turn(User, u1)]
      && h2 == [Turn(System, system), Turn(User, u1), Turn(User, u2), Turn(Assistant, a2)]
      && h3 == [Turn(System, system), Turn(Assistant, a2), Turn(User, u3), Turn(Assistant, a3)]
  {
    var s := Turn(System, system);
    var h1 := Call([s], model, 1, u1, fails).history;
    assert h1 == [s, Turn(User, u1)];
    var h2 := Call(h1, model, 1, u2, answers2).history;
    assert FirstNonEmpty([a2]) == a2;
    assert h2 == [s, Turn(User, u1), Turn(User, u2), Turn(Assistant, a2)];
    var m3 := h2 + [Turn(User, u3)];
    assert FirstNonEmpty([a3]) == a3;
    assert Pending(h2, 1, u3) == [s, Turn(Assistant, a2), Turn(User, u3)] by {
      assert m3[..1] + m3[3..] == [s, Turn(Assistant, a2), Turn(User, u3)];
    }
  }

  /** `OpenAIOperations`: one conversation window and the settings it was created with. */
  class OpenAIOperations {
    var messages: seq<Turn>
    const modelName: string
    const historyLength: nat

    /** The window is never empty, starts with the system turn, and holds at most `2 * historyLength + 2` turns. */
    ghost predicate Valid()
      reads this
    {
      1 <= |messages| <= 2 * historyLength + 2 && messages[0].role == System
    }

    /** The window starts as exactly one system turn holding the channel's context. */
    constructor (fileContext: string, modelName: string, historyLength: nat)
      ensures messages == [Turn(System, fileContext)]
      ensures this.modelName == modelName && this.historyLength == historyLength
      ensures Valid()
    {
      messages := [Turn(System, fileContext)];
      this.modelName := modelName;
      this.historyLength := historyLength;
    }

    /** `check_history_length`: removes the turns at indices 1 and 2 when the window is over its bound. */
    method CheckHistoryLength()
      modifies this
      ensures messages == TrimHistory(old(messages), historyLength)
    {
      if |messages| > historyLength * 2 + 1 {
        messages := messages[..1] + messages[Min(3, |messages|)..];
      }
    }

    /** `make_openai_call`: one exchange with the provider over this window. */
    method MakeOpenAICall(text: string, provider: Request -> ProviderReply) returns (response: string)
      requires Valid()
      modifies this
      ensures Valid()
      ensures messages[0] == old(messages[0])
      ensures var c := Call(old(messages), modelName, historyLength, text, provider);
        response == c.response && messages == c.history
    {
      CallBounded(messages, modelName, historyLength, text, provider);
      messages := messages + [Turn(User, text)];
      CheckHistoryLength();
      var request := if UsesResponsesEndpoint(modelName) then ResponsesRequest(modelName, text)
                     else ChatRequest(modelName, messages);
      match provider(request)
      case Failure =>
        response := Apology;
      case Reply(candidates) =>
        response := FirstNonEmpty(candidates);
        messages := messages + [Turn(Assistant, response)];
    }

    /**
     * `make_openai_call_completion`: a single prompt to the completion model; it
     * neither reads nor changes the window (the method has no frame on it).
     */
    method MakeOpenAICallCompletion(text: string, provider: Request -> ProviderReply) returns (response: string)
      ensures response == ResponseText(provider(CompletionRequest(CompletionModel, text)))
      ensures response != ""
    {
      match provider(CompletionRequest(CompletionModel, text))
      case Failure =>
        response := Apology;
      case Reply(candidates) =>
        response := FirstNonEmpty(candidates);
    }
  }
}
