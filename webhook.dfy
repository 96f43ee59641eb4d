/**
 * The two WhatsApp webhook routes of api.py as value-level specifications:
 * the subscription handshake (GET) and the handling of an event (POST).
 */
module Webhook {
  import opened Wrappers
  import opened Conversation
  import opened Store
  import opened WhatsApp
  import opened Payload

  /** A plain-text HTTP reply. */
  datatype Reply = Reply(body: string, status: int)

  /** The reply to the handshake: the echoed challenge (absent if it was absent), or the mismatch text. */
  datatype HandshakeReply = HandshakeReply(body: Option<string>, status: int)

  const MismatchText := "Verification token mismatch"

  /**
   * The subscription handshake over `hub.mode`, `hub.verify_token` and
   * `hub.challenge` (each None when not in the query string): the challenge is
   * echoed with 200 exactly when the mode is "subscribe" and the token is the
   * configured one; every other request gets the mismatch text with 403.
   */
  function Verify(mode: Option<string>, token: Option<string>, challenge: Option<string>, cfg: Config)
    : (r: HandshakeReply)
    ensures r.status == 200 <==> mode == Some("subscribe") && token == Some(cfg.verifyToken)
    ensures r.status == 200 ==> r.body == challenge
    ensures r.status != 200 ==> r == HandshakeReply(Some(MismatchText), 403)
  {
    if mode == Some("subscribe") && token == Some(cfg.verifyToken) then
      HandshakeReply(challenge, 200)
    else
      HandshakeReply(Some(MismatchText), 403)
  }

  /** The store and the deliveries after answering some messages. */
  datatype Ran = Ran(conversations: Conversations, deliveries: seq<Delivery>)

  /**
   * Answering messages one after the other: each runs the store exchange for
   * its sender and then one send of the reply to that sender.
   */
  function RunAll(conv: Conversations, ins: seq<Inbound>, gen: Generator, cfg: Config): (r: Ran)
    ensures |r.deliveries| == |ins|
    decreases |ins|
  {
    if ins == [] then Ran(conv, [])
    else
      var prev := RunAll(conv, ins[..|ins| - 1], gen, cfg);
      var m := ins[|ins| - 1];
      var e := Exchange(prev.conversations, m.sender, m.text, gen);
      Ran(e.conversations, prev.deliveries + [Delivery(m.sender, e.reply, Send(cfg, m.sender, e.reply))])
  }

  /** What handling an event did: the new store, the deliveries in order, the reply. */
  datatype Event = Event(conversations: Conversations, deliveries: seq<Delivery>, reply: Reply)

  /**
   * The POST route: an empty payload is refused; otherwise the messages met by
   * the walk are answered in order, and the reply says whether the walk got to
   * the end. Messages answered before a structural error stay answered.
   */
  function HandleEvent(conv: Conversations, p: Envelope, gen: Generator, cfg: Config): (o: Event)
    ensures Empty(p) ==> o.conversations == conv && o.deliveries == [] && o.reply.status == 400
    ensures !Empty(p) ==> |o.deliveries| <= |AllMessages(p)|
    ensures !Empty(p) ==> (o.reply.status == 200 <==> WellFormed(p))
    ensures !Empty(p) && WellFormed(p) ==> |o.deliveries| == |Select(AllMessages(p))|
  {
    if Empty(p) then Event(conv, [], Reply("no payload", 400))
    else
      WalkEnvelopeMeaning(p);
      SelectPrefix(AllMessages(p), Reached(p));
      SelectLength(AllMessages(p));
      var w := WalkEnvelope(p);
      var r := RunAll(conv, w.inbound, gen, cfg);
      Event(r.conversations, r.deliveries,
            if w.faulted then Reply("error", 500) else Reply("EVENT_RECEIVED", 200))
  }

  lemma RunAllLast(conv: Conversations, ins: seq<Inbound>, m: Inbound, gen: Generator, cfg: Config)
    ensures var prev := RunAll(conv, ins, gen, cfg);
      var e := Exchange(prev.conversations, m.sender, m.text, gen);
      RunAll(conv, ins + [m], gen, cfg)
        == Ran(e.conversations, prev.deliveries + [Delivery(m.sender, e.reply, Send(cfg, m.sender, e.reply))])
  {
  }

  /**
   * Message i is answered by exactly one delivery, the i-th, addressed to its
   * sender; with the token or phone id missing no delivery posts anything, and
   * otherwise every delivery posts to its recipient.
   */
  lemma {:induction false} RunAllDeliveries(conv: Conversations, ins: seq<Inbound>, gen: Generator, cfg: Config)
    ensures forall i :: 0 <= i < |ins| ==>
      var d := RunAll(conv, ins, gen, cfg).deliveries[i];
      && d.to == ins[i].sender
      && d.attempt == Send(cfg, d.to, d.text)
    ensures cfg.token == "" || cfg.phoneId == "" ==>
      forall i :: 0 <= i < |ins| ==> RunAll(conv, ins, gen, cfg).deliveries[i].attempt.ConfigMissing?
    ensures cfg.token != "" && cfg.phoneId != "" ==>
      forall i :: 0 <= i < |ins| ==>
        RunAll(conv, ins, gen, cfg).deliveries[i].attempt.Posted? &&
        RunAll(conv, ins, gen, cfg).deliveries[i].attempt.request.to == ins[i].sender
  {
    if ins != [] {
      var init := ins[..|ins| - 1];
      RunAllDeliveries(conv, init, gen, cfg);
      forall i | 0 <= i < |init| ensures ins[i] == init[i] { }
    }
  }

  /** A sender with no message in the run keeps its entry, or its absence, unchanged. */
  lemma {:induction false} RunAllFrame(conv: Conversations, ins: seq<Inbound>, gen: Generator, cfg: Config, s: string)
    requires forall i :: 0 <= i < |ins| ==> ins[i].sender != s
    ensures var c := RunAll(conv, ins, gen, cfg).conversations;
      (s in c <==> s in conv) && (s in conv ==> c[s] == conv[s])
  {
    if ins != [] {
      var init := ins[..|ins| - 1];
      forall i | 0 <= i < |init| ensures init[i].sender != s { assert init[i] == ins[i]; }
      RunAllFrame(conv, init, gen, cfg, s);
    }
  }

  /** A run keeps every stored history alternating user and model turns. */
  lemma {:induction false} RunAllKeepsAlternation(conv: Conversations, ins: seq<Inbound>, gen: Generator, cfg: Config)
    requires AllAlternate(conv)
    ensures AllAlternate(RunAll(conv, ins, gen, cfg).conversations)
  {
    if ins != [] {
      var init := ins[..|ins| - 1];
      RunAllKeepsAlternation(conv, init, gen, cfg);
      var m := ins[|ins| - 1];
      ExchangeKeepsAlternation(RunAll(conv, init, gen, cfg).conversations, m.sender, m.text, gen);
    }
  }

  /** How an event ends once its walk is known. */
  lemma HandleEventWalked(conv: Conversations, p: Envelope, gen: Generator, cfg: Config,
                          done: seq<Inbound>, faulted: bool)
    requires !Empty(p) && WalkEnvelope(p) == Walked(done, faulted)
    ensures HandleEvent(conv, p, gen, cfg)
      == Event(RunAll(conv, done, gen, cfg).conversations, RunAll(conv, done, gen, cfg).deliveries,
               if faulted then Reply("error", 500) else Reply("EVENT_RECEIVED", 200))
  {
  }

  /** An absent or empty payload is refused with 400 and changes nothing. */
  lemma EmptyEventRefused(conv: Conversations, p: Envelope, gen: Generator, cfg: Config)
    requires Empty(p)
    ensures HandleEvent(conv, p, gen, cfg) == Event(conv, [], Reply("no payload", 400))
  {
  }

  /**
   * A non-empty event answers, in document order and each by one delivery to
   * its sender, the messages with a sender among those the walk gets past
   * before its first structural error; they are a prefix of the messages a
   * full walk would answer, and all of them when the event is well-formed.
   * The reply is 200 "EVENT_RECEIVED" for a well-formed event and 500 "error"
   * otherwise; what was answered before the error stays answered.
   */
  lemma EventOutcome(conv: Conversations, p: Envelope, gen: Generator, cfg: Config)
    requires !Empty(p)
    ensures var answered := Select(AllMessages(p)[..Reached(p)]);
      var r := RunAll(conv, answered, gen, cfg);
      && answered <= Select(AllMessages(p))
      && HandleEvent(conv, p, gen, cfg)
           == Event(r.conversations, r.deliveries,
                    if WellFormed(p) then Reply("EVENT_RECEIVED", 200) else Reply("error", 500))
    ensures WellFormed(p) ==>
      && MessagesOk(AllMessages(p))
      && Reached(p) == |AllMessages(p)|
  {
    WalkEnvelopeMeaning(p);
    SelectPrefix(AllMessages(p), Reached(p));
  }

  /** One text message from a sender with no history, answered by the generator. */
  function OneTextEvent(sender: string, body: string): Envelope
  {
    Object(Given([Entry(Given([Change(Given(Value(Given([
      Message(Some(sender), Some("text"), Given(TextObject(Some(body))))
    ]))))]))]), false)
  }

  /**
   * One text message from a new sender creates exactly one entry, holding the
   * user turn and the model turn, and makes exactly one delivery, of the
   * answer, to that sender.
   */
  lemma OneTextMessageFromNewSender(conv: Conversations, sender: string, body: string, answer: string,
                                    gen: Generator, cfg: Config)
    requires sender != "" && sender !in conv
    requires gen(Request([], body)) == Generated(answer)
    ensures var o := HandleEvent(conv, OneTextEvent(sender, body), gen, cfg);
      && o.conversations == conv[sender := [Turn(User, body), Turn(Model, answer)]]
      && |o.conversations| == |conv| + 1
      && o.deliveries == [Delivery(sender, answer, Send(cfg, sender, answer))]
      && o.reply == Reply("EVENT_RECEIVED", 200)
  {
    var p := OneTextEvent(sender, body);
    var m := Message(Some(sender), Some("text"), Given(TextObject(Some(body))));
    assert WalkMessages([m]) == Walked([Inbound(sender, body)], false) by {
      assert [m][1..] == [];
    }
    var c := Change(Given(Value(Given([m]))));
    var e := Entry(Given([c]));
    var one := Walked([Inbound(sender, body)], false);
    assert [Inbound(sender, body)] + [] == [Inbound(sender, body)];
    assert WalkChanges([c]) == one by { assert [c][1..] == []; }
    assert WalkEntries([e]) == one by { assert [e][1..] == []; }
    assert WalkEnvelope(p) == one;
    RunAllLast(conv, [], Inbound(sender, body), gen, cfg);
    assert [] + [Inbound(sender, body)] == [Inbound(sender, body)];
    assert HistoryOf(conv, sender) == [];
    assert [] + [Turn(User, body), Turn(Model, answer)] == [Turn(User, body), Turn(Model, answer)];
  }

  /**
   * A text message without its `text` object stops the walk with 500, but the
   * message before it has been answered and stays in the store.
   */
  lemma ErrorKeepsEarlierAnswers(conv: Conversations, s1: string, body: string, s2: string,
                                 gen: Generator, cfg: Config)
    requires s1 != "" && s2 != ""
    ensures var first := Message(Some(s1), Some("text"), Given(TextObject(Some(body))));
      var broken := Message(Some(s2), Some("text"), Missing);
      var p := Object(Given([Entry(Given([Change(Given(Value(Given([first, broken]))))]))]), false);
      var o := HandleEvent(conv, p, gen, cfg);
      && o.reply == Reply("error", 500)
      && o.conversations == Exchange(conv, s1, body, gen).conversations
      && |o.deliveries| == 1 && o.deliveries[0].to == s1
  {
    var first := Message(Some(s1), Some("text"), Given(TextObject(Some(body))));
    var broken := Message(Some(s2), Some("text"), Missing);
    var ms := [first, broken];
    assert ms[1..] == [broken];
    assert ms[1..][1..] == [];
    assert WalkMessages(ms) == Walked([Inbound(s1, body)], true);
    RunAllLast(conv, [], Inbound(s1, body), gen, cfg);
    assert [] + [Inbound(s1, body)] == [Inbound(s1, body)];
  }
}
