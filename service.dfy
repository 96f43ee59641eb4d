/**
 * The WhatsApp side of the service in api.py as a stateful object: the global
 * conversation store, the record of send calls, and the handlers that update
 * them in place.
 */
module App {
  import opened Wrappers
  import opened Conversation
  import opened Store
  import opened WhatsApp
  import opened Payload
  import opened Webhook

  class Service {
    /** `conversations`: WhatsApp sender number -> stored turns. */
    var conversations: Conversations
    /** Every call of the send function, in order, with what it did (the HTTP post itself is I/O). */
    var deliveries: seq<Delivery>

    constructor ()
      ensures conversations == map[] && deliveries == []
    {
      conversations := map[];
      deliveries := [];
    }

    /**
     * `procesar_con_gemini_for_sender`: ask the generator with the sender's
     * history and the new text; keep the grown history on an answer, drop the
     * sender's entry and reply with the apology on a failure.
     */
    method ProcessForSender(sender: string, userText: string, gen: Generator) returns (reply: string)
      modifies this
      ensures var e := Exchange(old(conversations), sender, userText, gen);
        conversations == e.conversations && reply == e.reply
      ensures deliveries == old(deliveries)
    {
      var history := if sender in conversations then conversations[sender] else [];
      var contents := BuildContents(history, userText);
      match gen(contents) {
        case Generated(answer) =>
          conversations := conversations[sender := history + [Turn(User, userText), Turn(Model, answer)]];
          reply := answer;
        case GenerationFailed(_) =>
          conversations := conversations - {sender};
          reply := Apology;
      }
    }

    /**
     * `enviar_mensaje_whatsapp`: refuse when the token or phone id is missing,
     * otherwise post one text message; the call is recorded either way.
     */
    method SendWhatsApp(cfg: Config, to: string, message: string) returns (attempt: Attempt)
      modifies this
      ensures attempt == Send(cfg, to, message)
      ensures deliveries == old(deliveries) + [Delivery(to, message, attempt)]
      ensures conversations == old(conversations)
    {
      attempt := Send(cfg, to, message);
      deliveries := deliveries + [Delivery(to, message, attempt)];
    }

    /** The store and the send record are those left by answering `done`, starting from `conv0` and `sent0`. */
    ghost predicate Reflects(conv0: Conversations, sent0: seq<Delivery>, done: seq<Inbound>, gen: Generator, cfg: Config)
      reads this
    {
      && conversations == RunAll(conv0, done, gen, cfg).conversations
      && deliveries == sent0 + RunAll(conv0, done, gen, cfg).deliveries
    }

    /**
     * The body of the innermost loop of `whatsapp_webhook` for one message:
     * skip it without sender, otherwise choose its text, run the store exchange
     * and send the reply; `ok` is false where the code would raise.
     */
    method AnswerMessage(message: Message, gen: Generator, cfg: Config,
                         ghost conv0: Conversations, ghost sent0: seq<Delivery>, ghost done: seq<Inbound>)
      returns (ok: bool, ghost done': seq<Inbound>)
      requires Reflects(conv0, sent0, done, gen, cfg)
      modifies this
      ensures Reflects(conv0, sent0, done', gen, cfg)
      ensures Walked(done', !ok) == Walked(done + WalkMessage(message).inbound, WalkMessage(message).faulted)
    {
      assert done + [] == done;
      if message.NotAMessage? {
        return false, done;
      }
      var sender := message.from;
      if sender.None? || sender.value == "" {
        return true, done;
      }
      var userText: string;
      if message.kind == Some("text") {
        if !message.text.Given? {
          return false, done;
        }
        userText := BodyOf(message.text.value);
      } else {
        userText := Placeholder(message.kind);
      }
      ghost var m := Inbound(sender.value, userText);
      assert WalkMessage(message) == Walked([m], false);
      ghost var prev := RunAll(conv0, done, gen, cfg);
      RunAllLast(conv0, done, m, gen, cfg);
      var botReply := ProcessForSender(sender.value, userText, gen);
      var attempt := SendWhatsApp(cfg, sender.value, botReply);
      ghost var d := Delivery(sender.value, botReply, attempt);
      assert deliveries == (sent0 + prev.deliveries) + [d];
      assert (sent0 + prev.deliveries) + [d] == sent0 + (prev.deliveries + [d]);
      return true, done + [m];
    }

    /** The innermost loop of `whatsapp_webhook`: answer the messages in order. */
    method AnswerMessages(messages: seq<Message>, gen: Generator, cfg: Config,
                          ghost conv0: Conversations, ghost sent0: seq<Delivery>, ghost done: seq<Inbound>)
      returns (ok: bool, ghost done': seq<Inbound>)
      requires Reflects(conv0, sent0, done, gen, cfg)
      modifies this
      ensures Reflects(conv0, sent0, done', gen, cfg)
      ensures Then(Walked(done, false), WalkMessages(messages)) == Walked(done', !ok)
    {
      done' := done;
      var k := 0;
      while k < |messages|
        invariant 0 <= k <= |messages|
        invariant Then(Walked(done, false), WalkMessages(messages)) == Then(Walked(done', false), WalkMessages(messages[k..]))
        invariant Reflects(conv0, sent0, done', gen, cfg)
      {
        var rest := WalkMessages(messages[k + 1..]);
        assert messages[k..][1..] == messages[k + 1..];
        Advance(done', WalkMessage(messages[k]), rest);
        var answered;
        answered, done' := AnswerMessage(messages[k], gen, cfg, conv0, sent0, done');
        if !answered {
          return false, done';
        }
        k := k + 1;
      }
      assert done' + [] == done';
      return true, done';
    }

    /**
     * The middle loop of `whatsapp_webhook`: for each change in order, read
     * `value` (default `{}`) and its `messages` (falsy reads as none) and
     * answer them; `ok` is false where the code would raise.
     */
    method AnswerChanges(changes: seq<Change>, gen: Generator, cfg: Config,
                         ghost conv0: Conversations, ghost sent0: seq<Delivery>, ghost done: seq<Inbound>)
      returns (ok: bool, ghost done': seq<Inbound>)
      requires Reflects(conv0, sent0, done, gen, cfg)
      modifies this
      ensures Reflects(conv0, sent0, done', gen, cfg)
      ensures Then(Walked(done, false), WalkChanges(changes)) == Walked(done', !ok)
    {
      done' := done;
      var j := 0;
      while j < |changes|
        invariant 0 <= j <= |changes|
        invariant Then(Walked(done, false), WalkChanges(changes)) == Then(Walked(done', false), WalkChanges(changes[j..]))
        invariant Reflects(conv0, sent0, done', gen, cfg)
      {
        var change := changes[j];
        var rest := WalkChanges(changes[j + 1..]);
        assert changes[j..][1..] == changes[j + 1..];
        Advance(done', WalkChange(change), rest);
        WalkChangeShape(change);
        if !ChangeShapeOk(change) {
          assert done' + [] == done';
          return false, done';
        }
        var messages := MessagesOfValue(change.value);
        var answered;
        ghost var before := done';
        answered, done' := AnswerMessages(messages, gen, cfg, conv0, sent0, done');
        assert Then(Walked(before, false), WalkChange(change)) == Walked(done', !answered);
        if !answered {
          return false, done';
        }
        ThenNothing(rest);
        j := j + 1;
      }
      assert done' + [] == done';
      return true, done';
    }

    /**
     * The outer loop of `whatsapp_webhook`: for each entry in order, read its
     * `changes` (default none) and answer them; `ok` is false where the code
     * would raise.
     */
    method AnswerEntries(entries: seq<Entry>, gen: Generator, cfg: Config,
                         ghost conv0: Conversations, ghost sent0: seq<Delivery>, ghost done: seq<Inbound>)
      returns (ok: bool, ghost done': seq<Inbound>)
      requires Reflects(conv0, sent0, done, gen, cfg)
      modifies this
      ensures Reflects(conv0, sent0, done', gen, cfg)
      ensures Then(Walked(done, false), WalkEntries(entries)) == Walked(done', !ok)
    {
      done' := done;
      var i := 0;
      while i < |entries|
        invariant 0 <= i <= |entries|
        invariant Then(Walked(done, false), WalkEntries(entries)) == Then(Walked(done', false), WalkEntries(entries[i..]))
        invariant Reflects(conv0, sent0, done', gen, cfg)
      {
        var entry := entries[i];
        var rest := WalkEntries(entries[i + 1..]);
        assert entries[i..][1..] == entries[i + 1..];
        Advance(done', WalkEntry(entry), rest);
        WalkEntryShape(entry);
        if !EntryShapeOk(entry) {
          assert done' + [] == done';
          return false, done';
        }
        var changes := if entry.changes.Given? then entry.changes.value else [];
        var answered;
        ghost var before := done';
        answered, done' := AnswerChanges(changes, gen, cfg, conv0, sent0, done');
        assert Then(Walked(before, false), WalkEntry(entry)) == Walked(done', !answered);
        if !answered {
          return false, done';
        }
        ThenNothing(rest);
        i := i + 1;
      }
      assert done' + [] == done';
      return true, done';
    }

    /**
     * `whatsapp_webhook`: refuse an empty payload; otherwise walk the entries
     * in order and answer their changes, replying "EVENT_RECEIVED" at the end
     * or "error" with 500 where the code would raise. Messages answered before
     * the error stay answered.
     */
    method ReceiveEvent(p: Envelope, gen: Generator, cfg: Config) returns (reply: Reply)
      modifies this
      ensures var o := HandleEvent(old(conversations), p, gen, cfg);
        && conversations == o.conversations
        && deliveries == old(deliveries) + o.deliveries
        && reply == o.reply
    {
      if Empty(p) {
        return Reply("no payload", 400);
      }
      ghost var conv0 := conversations;
      ghost var sent0 := deliveries;
      if p.NotAnObject? || p.entry.Unusable? {
        HandleEventWalked(conv0, p, gen, cfg, [], true);
        return Reply("error", 500);
      }
      var entries := if p.entry.Given? then p.entry.value else [];
      assert WalkEnvelope(p) == WalkEntries(entries);
      ThenNothing(WalkEntries(entries));
      var answered;
      ghost var done;
      answered, done := AnswerEntries(entries, gen, cfg, conv0, sent0, []);
      HandleEventWalked(conv0, p, gen, cfg, done, !answered);
      if !answered {
        return Reply("error", 500);
      }
      return Reply("EVENT_RECEIVED", 200);
    }
  }
}
