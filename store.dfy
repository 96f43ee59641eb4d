/**
 * The process-wide conversation store of api.py (`conversations`, a dictionary
 * from WhatsApp sender number to list of turns) and its update rule for one
 * sender, as a value-level specification.
 */
module Store {
  import opened Conversation

  /** The reply sent to a user when generation failed. */
  const Apology := "Lo siento, ocurrió un problema procesando tu consulta. Intenta nuevamente más tarde."

  type Conversations = map<string, seq<Turn>>

  /** `conversations.get(sender, [])`. */
  function HistoryOf(conv: Conversations, sender: string): seq<Turn>
  {
    if sender in conv then conv[sender] else []
  }

  datatype Exchanged = Exchanged(conversations: Conversations, reply: string)

  /**
   * One exchange for a sender: on an answer the sender's entry becomes the
   * grown history, on a failure it is removed. No other entry is touched.
   */
  function Exchange(conv: Conversations, sender: string, userText: string, gen: Generator): (e: Exchanged)
    ensures forall s :: s != sender ==> (s in e.conversations <==> s in conv)
    ensures forall s :: s != sender && s in conv ==> e.conversations[s] == conv[s]
  {
    match Converse(HistoryOf(conv, sender), userText, gen)
    case Answered(history, answer) => Exchanged(conv[sender := history], answer)
    case Failed(_) => Exchanged(conv - {sender}, Apology)
  }

  /**
   * When the generator answers, the sender's history is the old one followed by
   * the user turn and the model turn, and the reply is the model turn's text.
   */
  lemma ExchangeAnswered(conv: Conversations, sender: string, userText: string, gen: Generator)
    requires gen(Request(HistoryOf(conv, sender), userText)).Generated?
    ensures var e := Exchange(conv, sender, userText, gen);
      && sender in e.conversations
      && e.conversations[sender]
           == HistoryOf(conv, sender) + [Turn(User, userText), Turn(Model, e.reply)]
      && e.reply == gen(Request(HistoryOf(conv, sender), userText)).text
  {
  }

  /**
   * When the generator fails, the sender's whole entry is gone (whether or not
   * it existed) and the reply is the fixed apology.
   */
  lemma ExchangeFailed(conv: Conversations, sender: string, userText: string, gen: Generator)
    requires gen(Request(HistoryOf(conv, sender), userText)).GenerationFailed?
    ensures var e := Exchange(conv, sender, userText, gen);
      && sender !in e.conversations
      && e.conversations.Keys == conv.Keys - {sender}
      && e.reply == Apology
  {
  }

  /** Every stored history alternates user and model turns. */
  predicate AllAlternate(conv: Conversations)
  {
    forall s :: s in conv ==> Alternates(conv[s])
  }

  /** An exchange keeps every stored history alternating. */
  lemma ExchangeKeepsAlternation(conv: Conversations, sender: string, userText: string, gen: Generator)
    requires AllAlternate(conv)
    ensures AllAlternate(Exchange(conv, sender, userText, gen).conversations)
  {
    var h := HistoryOf(conv, sender);
    var e := Exchange(conv, sender, userText, gen);
    if Converse(h, userText, gen).Answered? {
      assert Alternates(h);
      ConverseKeepsAlternation(h, userText, gen);
    }
    forall s | s in e.conversations
      ensures Alternates(e.conversations[s])
    {
      if s != sender {
        assert e.conversations[s] == conv[s];
      }
    }
  }
}
