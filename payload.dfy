/**
 * The WhatsApp Cloud API event envelope as the webhook handler of api.py reads
 * it (entry -> changes -> value -> messages), and the walk that turns it into
 * the messages to answer, in order, stopping where the code would raise.
 */
module Payload {
  import opened Wrappers

  /**
   * A key read with a default (`d.get(k, default)`): absent, so the default is
   * used; present with a value the code cannot use the way it does (it raises);
   * or present and usable.
   */
  datatype Field<T> = Missing | Unusable | Given(value: T)

  /** The `text` object of a text message; `body` is absent or a string. */
  datatype TextObject = TextObject(body: Option<string>)

  /**
   * One element of `messages`. `from` and `type` are None when absent or null.
   * NotAMessage is an element that is not an object (`message.get` raises).
   */
  datatype Message =
    | Message(from: Option<string>, kind: Option<string>, text: Field<TextObject>)
    | NotAMessage

  /**
   * The `value` object of a change. Any falsy `messages` (null, empty) reads as
   * Given([]); Unusable is a truthy value that is not a list of messages.
   */
  datatype Value = Value(messages: Field<seq<Message>>)

  datatype Change = Change(value: Field<Value>) | NotAChange

  datatype Entry = Entry(changes: Field<seq<Change>>) | NotAnEntry

  /**
   * What `request.get_json(silent=True)` gave. NoJson: nothing, unparsable, or
   * falsy JSON other than `{}`; NotAnObject: truthy JSON without `.get`;
   * Object: an object, with `otherKeys` telling whether it has keys besides `entry`.
   */
  datatype Envelope =
    | NoJson
    | NotAnObject
    | Object(entry: Field<seq<Entry>>, otherKeys: bool)

  /** `not payload`: no JSON, or the empty object. */
  predicate Empty(p: Envelope)
  {
    p.NoJson? || (p.Object? && p.entry.Missing? && !p.otherKeys)
  }

  /** A message to answer: its sender and the user text chosen for it. */
  datatype Inbound = Inbound(sender: string, text: string)

  /** The messages met by a walk, in order, and whether the walk stopped on an error. */
  datatype Walked = Walked(inbound: seq<Inbound>, faulted: bool)

  /** Walk `a`, then, unless it stopped, `b`. */
  function Then(a: Walked, b: Walked): Walked
  {
    if a.faulted then a else Walked(a.inbound + b.inbound, b.faulted)
  }

  const Nothing := Walked([], false)
  const Fault := Walked([], true)

  /** The text used for a message type other than `text`; an absent type prints as None. */
  function Placeholder(kind: Option<string>): string
  {
    "[Tipo de mensaje " + (match kind case None => "None" case Some(k) => k) + " no soportado por ahora]"
  }

  /** `text.get("body", "")`. */
  function BodyOf(t: TextObject): string
  {
    match t.body
    case None => ""
    case Some(b) => b
  }

  /** A sender that `if not sender` lets through. */
  predicate HasSender(m: Message)
  {
    m.Message? && m.from.Some? && m.from.value != ""
  }

  function WalkMessage(m: Message): (w: Walked)
  {
    match m
    case NotAMessage => Fault
    case Message(from, kind, text) =>
      if from.None? || from.value == "" then Nothing
      else if kind == Some("text") then
        (match text
         case Given(t) => Walked([Inbound(from.value, BodyOf(t))], false)
         case _ => Fault)
      else Walked([Inbound(from.value, Placeholder(kind))], false)
  }

  function WalkMessages(ms: seq<Message>): Walked
  {
    if ms == [] then Nothing else Then(WalkMessage(ms[0]), WalkMessages(ms[1..]))
  }

  function WalkValue(v: Field<Value>): Walked
  {
    match v
    case Missing => Nothing
    case Unusable => Fault
    case Given(Value(messages)) =>
      match messages
      case Missing => Nothing
      case Unusable => Fault
      case Given(ms) => WalkMessages(ms)
  }

  function WalkChange(c: Change): Walked
  {
    match c
    case NotAChange => Fault
    case Change(v) => WalkValue(v)
  }

  function WalkChanges(cs: seq<Change>): Walked
  {
    if cs == [] then Nothing else Then(WalkChange(cs[0]), WalkChanges(cs[1..]))
  }

  function WalkEntry(e: Entry): Walked
  {
    match e
    case NotAnEntry => Fault
    case Entry(changes) =>
      match changes
      case Missing => Nothing
      case Unusable => Fault
      case Given(cs) => WalkChanges(cs)
  }

  function WalkEntries(es: seq<Entry>): Walked
  {
    if es == [] then Nothing else Then(WalkEntry(es[0]), WalkEntries(es[1..]))
  }

  /**
   * The walk of a non-empty envelope: the messages answered are those with a
   * sender among the messages it gets past before it stops, in document order.
   */
  function WalkEnvelope(p: Envelope): (w: Walked)
    ensures w.inbound == Select(AllMessages(p)[..Reached(p)])
  {
    match p
    case NoJson => Nothing
    case NotAnObject => Fault
    case Object(entry, _) =>
      match entry
      case Missing => Nothing
      case Unusable => Fault
      case Given(es) => WalkEntriesReach(es); WalkEntries(es)
  }

  lemma ThenNothing(a: Walked)
    ensures Then(Nothing, a) == a
  {
  }

  /** One step of a walk already past the messages `done`. */
  lemma Advance(done: seq<Inbound>, a: Walked, rest: Walked)
    ensures Then(Walked(done, false), Then(a, rest))
      == if a.faulted then Walked(done + a.inbound, true)
         else Then(Walked(done + a.inbound, false), rest)
  {
  }

  // ---------------------------------------------------------------------------
  // A reference reading of the envelope: all messages flattened in document
  // order, the well-formedness that keeps the code from raising, and the
  // selection of messages with a sender.

  /** The shape under which handling a message cannot raise. */
  predicate MessageOk(m: Message)
  {
    m.Message? && (HasSender(m) && m.kind == Some("text") ==> m.text.Given?)
  }

  predicate MessagesOk(ms: seq<Message>)
  {
    forall i :: 0 <= i < |ms| ==> MessageOk(ms[i])
  }

  predicate ValueOk(v: Field<Value>)
  {
    match v
    case Missing => true
    case Unusable => false
    case Given(Value(messages)) =>
      match messages
      case Missing => true
      case Unusable => false
      case Given(ms) => MessagesOk(ms)
  }

  predicate ChangesOk(cs: seq<Change>)
  {
    forall i :: 0 <= i < |cs| ==> cs[i].Change? && ValueOk(cs[i].value)
  }

  predicate EntryOk(e: Entry)
  {
    match e
    case NotAnEntry => false
    case Entry(changes) =>
      match changes
      case Missing => true
      case Unusable => false
      case Given(cs) => ChangesOk(cs)
  }

  predicate EntriesOk(es: seq<Entry>)
  {
    forall i :: 0 <= i < |es| ==> EntryOk(es[i])
  }

  /** A non-empty envelope the handler walks to its end. */
  predicate WellFormed(p: Envelope)
  {
    match p
    case NoJson => false
    case NotAnObject => false
    case Object(entry, _) =>
      match entry
      case Missing => true
      case Unusable => false
      case Given(es) => EntriesOk(es)
  }

  function MessagesOfValue(v: Field<Value>): seq<Message>
  {
    if v.Given? && v.value.messages.Given? then v.value.messages.value else []
  }

  function MessagesOfChanges(cs: seq<Change>): seq<Message>
  {
    if cs == [] then []
    else (if cs[0].Change? then MessagesOfValue(cs[0].value) else []) + MessagesOfChanges(cs[1..])
  }

  function MessagesOfEntries(es: seq<Entry>): seq<Message>
  {
    if es == [] then []
    else
      (if es[0].Entry? && es[0].changes.Given? then MessagesOfChanges(es[0].changes.value) else [])
      + MessagesOfEntries(es[1..])
  }

  /** Every message of the envelope, entry by entry, change by change. */
  function AllMessages(p: Envelope): seq<Message>
  {
    if p.Object? && p.entry.Given? then MessagesOfEntries(p.entry.value) else []
  }

  /**
   * The text answered for a message: the body of a text message, the
   * placeholder otherwise. A text message without its `text` object makes the
   * code raise before any text is chosen, so no walk answers it; "" stands in.
   */
  function UserText(m: Message): string
    requires m.Message?
  {
    if m.kind == Some("text") then
      (if m.text.Given? then BodyOf(m.text.value) else "")
    else
      Placeholder(m.kind)
  }

  /** The message to answer for `m`, if it has a sender. */
  function SelectOne(m: Message): (r: seq<Inbound>)
    ensures |r| <= 1
  {
    if HasSender(m) then [Inbound(m.from.value, UserText(m))] else []
  }

  /** The messages that have a sender, with their text, in order. */
  function Select(ms: seq<Message>): seq<Inbound>
  {
    if ms == [] then [] else SelectOne(ms[0]) + Select(ms[1..])
  }

  /** At most one message is answered per message read. */
  lemma {:induction false} SelectLength(ms: seq<Message>)
    ensures |Select(ms)| <= |ms|
  {
    if ms != [] {
      SelectLength(ms[1..]);
    }
  }

  lemma {:induction false} SelectAppend(a: seq<Message>, b: seq<Message>)
    ensures Select(a + b) == Select(a) + Select(b)
  {
    if a == [] {
      assert a + b == b;
    } else {
      assert (a + b)[0] == a[0];
      assert (a + b)[1..] == a[1..] + b;
      SelectAppend(a[1..], b);
      calc {
        Select(a + b);
        SelectOne(a[0]) + Select(a[1..] + b);
        SelectOne(a[0]) + (Select(a[1..]) + Select(b));
        (SelectOne(a[0]) + Select(a[1..])) + Select(b);
      }
    }
  }

  lemma MessagesOkAppend(a: seq<Message>, b: seq<Message>)
    requires MessagesOk(a) && MessagesOk(b)
    ensures MessagesOk(a + b)
  {
    forall i | 0 <= i < |a + b| ensures MessageOk((a + b)[i]) {
      if i < |a| { assert MessageOk(a[i]); } else { assert MessageOk(b[i - |a|]); }
    }
  }

  /** The messages answered before a stop are a prefix of those a full walk would answer. */
  lemma SelectPrefix(ms: seq<Message>, n: nat)
    requires n <= |ms|
    ensures Select(ms[..n]) <= Select(ms)
  {
    assert ms == ms[..n] + ms[n..];
    SelectAppend(ms[..n], ms[n..]);
  }

  lemma {:induction false} WalkMessagesMeaning(ms: seq<Message>)
    ensures WalkMessages(ms).faulted <==> !MessagesOk(ms)
    ensures MessagesOk(ms) ==> WalkMessages(ms).inbound == Select(ms)
    ensures MessagesOk(ms) ==> ReachedMessages(ms) == |ms|
  {
    if ms != [] {
      WalkMessagesMeaning(ms[1..]);
      assert MessagesOk(ms) <==> MessageOk(ms[0]) && MessagesOk(ms[1..]) by {
        if MessageOk(ms[0]) && MessagesOk(ms[1..]) {
          forall i | 0 <= i < |ms| ensures MessageOk(ms[i]) {
            if i > 0 { assert ms[i] == ms[1..][i - 1]; }
          }
        }
        if MessagesOk(ms) {
          forall i | 0 <= i < |ms[1..]| ensures MessageOk(ms[1..][i]) { assert ms[1..][i] == ms[i + 1]; }
        }
      }
    }
  }

  lemma WalkValueMeaning(v: Field<Value>)
    ensures WalkValue(v).faulted <==> !ValueOk(v)
    ensures ValueOk(v) ==> MessagesOk(MessagesOfValue(v))
    ensures ValueOk(v) ==> WalkValue(v).inbound == Select(MessagesOfValue(v))
  {
    if v.Given? && v.value.messages.Given? {
      WalkMessagesMeaning(v.value.messages.value);
    }
  }

  lemma {:induction false} WalkChangesMeaning(cs: seq<Change>)
    ensures WalkChanges(cs).faulted <==> !ChangesOk(cs)
    ensures ChangesOk(cs) ==> MessagesOk(MessagesOfChanges(cs))
    ensures ChangesOk(cs) ==> WalkChanges(cs).inbound == Select(MessagesOfChanges(cs))
    ensures ChangesOk(cs) ==> ReachedChanges(cs) == |MessagesOfChanges(cs)|
  {
    if cs != [] {
      WalkChangesMeaning(cs[1..]);
      assert ChangesOk(cs) <==> (cs[0].Change? && ValueOk(cs[0].value)) && ChangesOk(cs[1..]) by {
        if ChangesOk(cs) {
          forall i | 0 <= i < |cs[1..]| ensures cs[1..][i].Change? && ValueOk(cs[1..][i].value) {
            assert cs[1..][i] == cs[i + 1];
          }
        }
      }
      if cs[0].Change? {
        WalkValueMeaning(cs[0].value);
        if ChangesOk(cs) {
          SelectAppend(MessagesOfValue(cs[0].value), MessagesOfChanges(cs[1..]));
          MessagesOkAppend(MessagesOfValue(cs[0].value), MessagesOfChanges(cs[1..]));
        }
      }
    }
  }

  lemma WalkEntryMeaning(e: Entry)
    ensures WalkEntry(e).faulted <==> !EntryOk(e)
    ensures EntryOk(e) ==>
      var ms := if e.changes.Given? then MessagesOfChanges(e.changes.value) else [];
      MessagesOk(ms) && WalkEntry(e).inbound == Select(ms)
  {
    if e.Entry? && e.changes.Given? {
      WalkChangesMeaning(e.changes.value);
    }
  }

  lemma {:induction false} WalkEntriesMeaning(es: seq<Entry>)
    ensures WalkEntries(es).faulted <==> !EntriesOk(es)
    ensures EntriesOk(es) ==> MessagesOk(MessagesOfEntries(es))
    ensures EntriesOk(es) ==> WalkEntries(es).inbound == Select(MessagesOfEntries(es))
    ensures EntriesOk(es) ==> ReachedEntries(es) == |MessagesOfEntries(es)|
  {
    if es != [] {
      WalkEntriesMeaning(es[1..]);
      assert EntriesOk(es) <==> EntryOk(es[0]) && EntriesOk(es[1..]) by {
        if EntriesOk(es) {
          forall i | 0 <= i < |es[1..]| ensures EntryOk(es[1..][i]) { assert es[1..][i] == es[i + 1]; }
        }
      }
      WalkEntryMeaning(es[0]);
      if EntriesOk(es) {
        var first := if es[0].changes.Given? then MessagesOfChanges(es[0].changes.value) else [];
        SelectAppend(first, MessagesOfEntries(es[1..]));
        MessagesOkAppend(first, MessagesOfEntries(es[1..]));
      }
    }
  }

  /**
   * The walk stops on an error exactly when the envelope is not well formed;
   * on a well-formed envelope it yields, in entry, change, message order, every
   * message that has a sender, with its body or the placeholder as text.
   */
  lemma WalkEnvelopeMeaning(p: Envelope)
    requires !p.NoJson?
    ensures WalkEnvelope(p).faulted <==> !WellFormed(p)
    ensures WellFormed(p) ==> MessagesOk(AllMessages(p))
    ensures WellFormed(p) ==> WalkEnvelope(p).inbound == Select(AllMessages(p))
    ensures WellFormed(p) ==> Reached(p) == |AllMessages(p)|
  {
    if p.Object? && p.entry.Given? {
      WalkEntriesMeaning(p.entry.value);
    }
  }

  // ---------------------------------------------------------------------------
  // Where the walk stops: how many messages, in document order, it gets past
  // before the first point where the code raises (all of them when none).

  function ReachedMessages(ms: seq<Message>): (n: nat)
    ensures n <= |ms|
  {
    if ms == [] || !MessageOk(ms[0]) then 0 else 1 + ReachedMessages(ms[1..])
  }

  /** `value` and its `messages` can be read without raising. */
  predicate ChangeShapeOk(c: Change)
  {
    c.Change? && !c.value.Unusable? && (c.value.Given? ==> !c.value.value.messages.Unusable?)
  }

  function ReachedChanges(cs: seq<Change>): (n: nat)
    ensures n <= |MessagesOfChanges(cs)|
  {
    if cs == [] || !ChangeShapeOk(cs[0]) then 0
    else
      var ms := MessagesOfValue(cs[0].value);
      if !MessagesOk(ms) then ReachedMessages(ms) else |ms| + ReachedChanges(cs[1..])
  }

  /** An entry's `changes` can be read without raising. */
  predicate EntryShapeOk(e: Entry)
  {
    e.Entry? && !e.changes.Unusable?
  }

  function ReachedEntries(es: seq<Entry>): (n: nat)
    ensures n <= |MessagesOfEntries(es)|
  {
    if es == [] || !EntryShapeOk(es[0]) then 0
    else
      var cs := if es[0].changes.Given? then es[0].changes.value else [];
      if !ChangesOk(cs) then ReachedChanges(cs) else |MessagesOfChanges(cs)| + ReachedEntries(es[1..])
  }

  function Reached(p: Envelope): (n: nat)
    ensures n <= |AllMessages(p)|
  {
    if p.Object? && p.entry.Given? then ReachedEntries(p.entry.value) else 0
  }

  /** A change either stops the walk or walks the messages of its value. */
  lemma WalkChangeShape(c: Change)
    ensures !ChangeShapeOk(c) ==> WalkChange(c) == Fault
    ensures ChangeShapeOk(c) ==> WalkChange(c) == WalkMessages(MessagesOfValue(c.value))
  {
  }

  /** An entry either stops the walk or walks its changes. */
  lemma WalkEntryShape(e: Entry)
    ensures !EntryShapeOk(e) ==> WalkEntry(e) == Fault
    ensures EntryShapeOk(e) ==> WalkEntry(e) == WalkChanges(if e.changes.Given? then e.changes.value else [])
  {
  }

  lemma WalkMessageOk(m: Message)
    requires MessageOk(m)
    ensures !WalkMessage(m).faulted && WalkMessage(m).inbound == Select([m])
  {
    assert [m][1..] == [];
  }

  lemma {:induction false} WalkMessagesReach(ms: seq<Message>)
    ensures WalkMessages(ms).inbound == Select(ms[..ReachedMessages(ms)])
  {
    if ms == [] {
    } else if !MessageOk(ms[0]) {
      assert WalkMessage(ms[0]).inbound == [];
    } else {
      var r := ReachedMessages(ms[1..]);
      WalkMessagesReach(ms[1..]);
      WalkMessageOk(ms[0]);
      SelectAppend([ms[0]], ms[1..][..r]);
      assert ms[..1 + r] == [ms[0]] + ms[1..][..r];
    }
  }

  lemma SelectTakeLeft(a: seq<Message>, b: seq<Message>, n: nat)
    requires n <= |a|
    ensures Select((a + b)[..n]) == Select(a[..n])
  {
    assert (a + b)[..n] == a[..n];
  }

  lemma SelectTakePast(a: seq<Message>, b: seq<Message>, n: nat)
    requires n <= |b|
    ensures Select((a + b)[..|a| + n]) == Select(a) + Select(b[..n])
  {
    assert (a + b)[..|a| + n] == a + b[..n];
    SelectAppend(a, b[..n]);
  }

  lemma {:induction false} WalkChangesReach(cs: seq<Change>)
    ensures WalkChanges(cs).inbound == Select(MessagesOfChanges(cs)[..ReachedChanges(cs)])
  {
    if cs == [] {
    } else if !ChangeShapeOk(cs[0]) {
      WalkChangeShape(cs[0]);
      assert WalkChanges(cs).inbound == [] && ReachedChanges(cs) == 0;
    } else {
      var ms := MessagesOfValue(cs[0].value);
      var rest := MessagesOfChanges(cs[1..]);
      WalkChangeShape(cs[0]);
      assert WalkChanges(cs) == Then(WalkMessages(ms), WalkChanges(cs[1..]));
      assert MessagesOfChanges(cs) == ms + rest;
      WalkMessagesMeaning(ms);
      if !MessagesOk(ms) {
        WalkMessagesReach(ms);
        SelectTakeLeft(ms, rest, ReachedMessages(ms));
        assert WalkChanges(cs).inbound == WalkMessages(ms).inbound;
        assert ReachedChanges(cs) == ReachedMessages(ms);
      } else {
        WalkChangesReach(cs[1..]);
        SelectTakePast(ms, rest, ReachedChanges(cs[1..]));
        assert WalkChanges(cs).inbound == WalkMessages(ms).inbound + WalkChanges(cs[1..]).inbound;
        assert ReachedChanges(cs) == |ms| + ReachedChanges(cs[1..]);
      }
    }
  }

  lemma {:induction false} WalkEntriesReach(es: seq<Entry>)
    ensures WalkEntries(es).inbound == Select(MessagesOfEntries(es)[..ReachedEntries(es)])
  {
    if es == [] {
    } else if !EntryShapeOk(es[0]) {
      WalkEntryShape(es[0]);
      assert WalkEntries(es).inbound == [] && ReachedEntries(es) == 0;
    } else {
      var cs := if es[0].changes.Given? then es[0].changes.value else [];
      var ms := MessagesOfChanges(cs);
      var rest := MessagesOfEntries(es[1..]);
      WalkEntryShape(es[0]);
      assert WalkEntries(es) == Then(WalkChanges(cs), WalkEntries(es[1..]));
      assert MessagesOfEntries(es) == ms + rest;
      WalkChangesMeaning(cs);
      if !ChangesOk(cs) {
        WalkChangesReach(cs);
        SelectTakeLeft(ms, rest, ReachedChanges(cs));
        assert WalkEntries(es).inbound == WalkChanges(cs).inbound;
        assert ReachedEntries(es) == ReachedChanges(cs);
      } else {
        WalkEntriesReach(es[1..]);
        SelectTakePast(ms, rest, ReachedEntries(es[1..]));
        assert WalkEntries(es).inbound == WalkChanges(cs).inbound + WalkEntries(es[1..]).inbound;
        assert ReachedEntries(es) == |ms| + ReachedEntries(es[1..]);
      }
    }
  }
}
