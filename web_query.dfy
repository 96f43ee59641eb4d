/**
 * The browser-facing routes of api.py: `/query`, which runs the same exchange
 * rule on a history kept in the session cookie, and `/clear`, which drops it.
 */
module WebQuery {
  import opened Wrappers
  import opened Conversation

  /** A JSON reply: status code and the string fields of the object. */
  datatype JsonReply = JsonReply(status: int, fields: map<string, string>)

  const MissingQueryError := "Debe enviar un JSON con la clave 'query'."
  const AgentRole := "Agente de Reservas del Hotel"
  const MemoryStatus := "Memoria gestionada por la API (cookie de sesión)"
  const GenerationError := "Ocurrió un error en la API de Gemini."
  const ClearedStatus := "Historial de conversación limpiado. Nueva sesión iniciada."

  /** `session.get('chat_history', [])`. */
  function StoredHistory(chat: Option<seq<Turn>>): seq<Turn>
  {
    match chat
    case None => []
    case Some(h) => h
  }

  /** The session's history and the reply after one `/query` request. */
  datatype Queried = Queried(chatHistory: Option<seq<Turn>>, reply: JsonReply)

  /**
   * One `/query` request. `body` is the request's JSON object (None when there
   * is none); its values are the JSON strings it holds.
   */
  function Query(chat: Option<seq<Turn>>, body: Option<map<string, string>>, gen: Generator): (q: Queried)
    ensures q.reply.status == 400 <==> body.None? || "query" !in body.value
    ensures q.reply.status == 400 ==> q.chatHistory == chat
    ensures q.reply.status != 400 ==>
      (q.reply.status == 200 <==> gen(Request(StoredHistory(chat), body.value["query"])).Generated?)
    ensures q.reply.status == 200 || q.reply.status == 400 || q.reply.status == 500
    ensures q.reply.status == 500 ==> q.chatHistory == None
  {
    if body.None? || "query" !in body.value then
      Queried(chat, JsonReply(400, map["error" := MissingQueryError]))
    else
      match Converse(StoredHistory(chat), body.value["query"], gen)
      case Answered(history, answer) =>
        Queried(Some(history),
                JsonReply(200, map["response" := answer, "agent_role" := AgentRole, "status" := MemoryStatus]))
      case Failed(details) =>
        Queried(None, JsonReply(500, map["error" := GenerationError, "details" := details]))
  }

  /** A request without a JSON object holding `query` gets 400 and leaves the history as it was. */
  lemma QueryWithoutQueryKey(chat: Option<seq<Turn>>, body: Option<map<string, string>>, gen: Generator)
    requires body.None? || "query" !in body.value
    ensures Query(chat, body, gen).chatHistory == chat
    ensures Query(chat, body, gen).reply.status == 400
  {
  }

  /**
   * When the generator answers, the reply is 200 with the answer, and the
   * session history is the stored one followed by the question and the answer.
   */
  lemma QueryAnswered(chat: Option<seq<Turn>>, body: map<string, string>, gen: Generator)
    requires "query" in body
    requires gen(Request(StoredHistory(chat), body["query"])).Generated?
    ensures var q := Query(chat, Some(body), gen);
      var answer := gen(Request(StoredHistory(chat), body["query"])).text;
      && q.reply.status == 200
      && q.reply.fields["response"] == answer
      && q.reply.fields["agent_role"] == AgentRole
      && q.chatHistory == Some(StoredHistory(chat) + [Turn(User, body["query"]), Turn(Model, answer)])
      && |q.chatHistory.value| == |StoredHistory(chat)| + 2
  {
  }

  /** When the generator fails, the whole session history is dropped and the reply is 500 with the details. */
  lemma QueryFailed(chat: Option<seq<Turn>>, body: map<string, string>, gen: Generator)
    requires "query" in body
    requires gen(Request(StoredHistory(chat), body["query"])).GenerationFailed?
    ensures var q := Query(chat, Some(body), gen);
      && q.chatHistory == None
      && q.reply.status == 500
      && q.reply.fields["error"] == GenerationError
      && q.reply.fields["details"] == gen(Request(StoredHistory(chat), body["query"])).details
  {
  }

  /** The reply of `/clear`. */
  const Cleared := JsonReply(200, map["status" := ClearedStatus])

  /**
   * After a clear, the next question is sent to the generator alone, with no
   * earlier turns: generators that agree on that one-content request give the
   * same outcome, whatever they would answer to a longer one.
   */
  lemma QueryAfterClear(body: map<string, string>, gen: Generator, gen': Generator)
    requires "query" in body
    requires gen([UserContent(body["query"])]) == gen'([UserContent(body["query"])])
    ensures Query(None, Some(body), gen) == Query(None, Some(body), gen')
  {
    assert Request(StoredHistory(None), body["query"]) == [UserContent(body["query"])];
  }

  /** The Flask session of one browser, as far as these routes use it. */
  class Session {
    /** The `chat_history` key of the session: None when absent. */
    var chatHistory: Option<seq<Turn>>

    constructor ()
      ensures chatHistory == None
    {
      chatHistory := None;
    }

    /** `handle_query`. */
    method HandleQuery(body: Option<map<string, string>>, gen: Generator) returns (reply: JsonReply)
      modifies this
      ensures Queried(chatHistory, reply) == Query(old(chatHistory), body, gen)
    {
      if body.None? || "query" !in body.value {
        return JsonReply(400, map["error" := MissingQueryError]);
      }
      var userQuery := body.value["query"];
      var history := if chatHistory.Some? then chatHistory.value else [];
      var contents := BuildContents(history, userQuery);
      match gen(contents) {
        case Generated(answer) =>
          chatHistory := Some(history + [Turn(User, userQuery), Turn(Model, answer)]);
          reply := JsonReply(200, map["response" := answer, "agent_role" := AgentRole, "status" := MemoryStatus]);
        case GenerationFailed(details) =>
          chatHistory := None;
          reply := JsonReply(500, map["error" := GenerationError, "details" := details]);
      }
    }

    /** `clear_history`: drop the history, present or not; always 200. */
    method ClearHistory() returns (reply: JsonReply)
      modifies this
      ensures chatHistory == None && reply == Cleared
    {
      chatHistory := None;
      reply := Cleared;
    }
  }
}
