/**
 * The turns of one conversation, the request built from them for the
 * generation service, and the rule that updates a history after one exchange
 * (api.py: procesar_con_gemini_for_sender and handle_query share it).
 */
module Conversation {

  datatype Role = User | Model

  /** One stored turn, the dictionary `{'role': ..., 'text': ...}`. */
  datatype Turn = Turn(role: Role, text: string)

  /** `types.Part(text=...)`. */
  datatype Part = Part(text: string)

  /** `types.Content(role=..., parts=[...])`: one block of a generation request. */
  datatype Content = Content(role: Role, parts: seq<Part>)

  /** What the generation service did with a request: answered with a text, or raised. */
  datatype Generation = Generated(text: string) | GenerationFailed(details: string)

  /**
   * The remote generation call (model, system instruction and file-search store
   * are fixed), seen as an oracle over the request contents.
   */
  type Generator = seq<Content> -> Generation

  /** The content block that replays one stored turn. */
  function AsContent(t: Turn): Content
  {
    Content(t.role, [Part(t.text)])
  }

  /** The content block of the new question. */
  function UserContent(userText: string): Content
  {
    Content(User, [Part(userText)])
  }

  /** The stored turns replayed as content blocks, in conversation order. */
  function Replay(history: seq<Turn>): (cs: seq<Content>)
    ensures |cs| == |history|
  {
    if history == [] then [] else [AsContent(history[0])] + Replay(history[1..])
  }

  /** The contents sent to the generator: the replayed history, then the new user turn. */
  function Request(history: seq<Turn>, userText: string): (cs: seq<Content>)
  {
    Replay(history) + [UserContent(userText)]
  }

  /** The text of a content block: its parts joined. */
  function TextOf(parts: seq<Part>): string
  {
    if parts == [] then "" else parts[0].text + TextOf(parts[1..])
  }

  /** Reading a request back as turns: the inverse of building it. */
  function Recover(cs: seq<Content>): (h: seq<Turn>)
    ensures |h| == |cs|
  {
    if cs == [] then [] else [Turn(cs[0].role, TextOf(cs[0].parts))] + Recover(cs[1..])
  }

  lemma {:induction false} ReplayAt(history: seq<Turn>, i: nat)
    requires i < |history|
    ensures Replay(history)[i] == AsContent(history[i])
  {
    if i > 0 {
      ReplayAt(history[1..], i - 1);
    }
  }

  lemma {:induction false} ReplayAppend(a: seq<Turn>, b: seq<Turn>)
    ensures Replay(a + b) == Replay(a) + Replay(b)
  {
    if a == [] {
      assert a + b == b;
    } else {
      assert (a + b)[1..] == a[1..] + b;
      ReplayAppend(a[1..], b);
    }
  }

  /**
   * The request holds the stored history in its original order with every role
   * and text kept, followed by exactly one user block with the new text.
   */
  lemma RequestShape(history: seq<Turn>, userText: string)
    ensures |Request(history, userText)| == |history| + 1
    ensures forall i :: 0 <= i < |history| ==>
      Request(history, userText)[i] == Content(history[i].role, [Part(history[i].text)])
    ensures Request(history, userText)[|history|] == Content(User, [Part(userText)])
  {
    forall i | 0 <= i < |history|
      ensures Request(history, userText)[i] == Content(history[i].role, [Part(history[i].text)])
    {
      ReplayAt(history, i);
    }
  }

  lemma TextOfSingle(t: string)
    ensures TextOf([Part(t)]) == t
  {
  }

  lemma {:induction false} RecoverReplay(history: seq<Turn>)
    ensures Recover(Replay(history)) == history
  {
    if history != [] {
      var c := AsContent(history[0]);
      TextOfSingle(history[0].text);
      assert ([c] + Replay(history[1..]))[1..] == Replay(history[1..]);
      RecoverReplay(history[1..]);
    }
  }

  lemma {:induction false} RecoverAppend(a: seq<Content>, b: seq<Content>)
    ensures Recover(a + b) == Recover(a) + Recover(b)
  {
    if a == [] {
      assert a + b == b;
    } else {
      assert (a + b)[1..] == a[1..] + b;
      RecoverAppend(a[1..], b);
    }
  }

  /** Round trip: reading the request back gives the history plus the new user turn. */
  lemma RequestRoundTrip(history: seq<Turn>, userText: string)
    ensures Recover(Request(history, userText)) == history + [Turn(User, userText)]
  {
    RecoverAppend(Replay(history), [UserContent(userText)]);
    RecoverReplay(history);
    TextOfSingle(userText);
  }

  /**
   * The loop of api.py that builds `full_contents`: one block per stored turn,
   * appended in order, then the user block.
   */
  method BuildContents(history: seq<Turn>, userText: string) returns (contents: seq<Content>)
    ensures contents == Request(history, userText)
  {
    contents := [];
    for i := 0 to |history|
      invariant |contents| == i
      invariant forall k :: 0 <= k < i ==> contents[k] == AsContent(history[k])
    {
      contents := contents + [AsContent(history[i])];
    }
    forall k | 0 <= k < |history|
      ensures contents[k] == Replay(history)[k]
    {
      ReplayAt(history, k);
    }
    assert contents == Replay(history);
    contents := contents + [UserContent(userText)];
  }

  /** The outcome of one exchange: the new history and the answer, or the failure. */
  datatype Outcome = Answered(history: seq<Turn>, answer: string) | Failed(details: string)

  /**
   * One exchange: the generator is asked with the request built from the
   * history; on an answer the history gains the user turn and the model turn.
   */
  function Converse(history: seq<Turn>, userText: string, gen: Generator): (x: Outcome)
    ensures x.Answered? <==> gen(Request(history, userText)).Generated?
    ensures x.Answered? ==> |x.history| == |history| + 2 && x.history[..|history|] == history
  {
    match gen(Request(history, userText))
    case Generated(answer) => Answered(history + [Turn(User, userText), Turn(Model, answer)], answer)
    case GenerationFailed(details) => Failed(details)
  }

  /**
   * An exchange succeeds exactly when the generator answers the request; then
   * the history grows by exactly two turns, the old turns stay in front, and the
   * answer is the model turn; otherwise the failure carries the generator's details.
   */
  lemma ConverseOutcome(history: seq<Turn>, userText: string, gen: Generator)
    ensures Converse(history, userText, gen).Answered? <==> gen(Request(history, userText)).Generated?
    ensures Converse(history, userText, gen).Answered? ==>
      var x := Converse(history, userText, gen);
      && |x.history| == |history| + 2
      && x.history[..|history|] == history
      && x.history[|history|] == Turn(User, userText)
      && x.history[|history| + 1] == Turn(Model, x.answer)
      && x.answer == gen(Request(history, userText)).text
    ensures Converse(history, userText, gen).Failed? ==>
      Converse(history, userText, gen).details == gen(Request(history, userText)).details
  {
  }

  /**
   * After an answer, the next request replays exactly the request just sent,
   * then the answer as a model block, then the next question.
   */
  lemma NextRequestExtends(history: seq<Turn>, userText: string, gen: Generator, nextText: string)
    requires Converse(history, userText, gen).Answered?
    ensures var x := Converse(history, userText, gen);
      Request(x.history, nextText)
        == Request(history, userText) + [Content(Model, [Part(x.answer)]), UserContent(nextText)]
  {
    var x := Converse(history, userText, gen);
    var pair := [Turn(User, userText), Turn(Model, x.answer)];
    ReplayAppend(history, pair);
    assert Replay(pair) == [UserContent(userText), Content(Model, [Part(x.answer)])] by {
      assert pair[1..][1..] == [];
    }
  }

  /** Turns alternate user, model, user, model, ... and come in pairs. */
  predicate Alternates(history: seq<Turn>)
  {
    && |history| % 2 == 0
    && forall i :: 0 <= i < |history| ==> history[i].role == (if i % 2 == 0 then User else Model)
  }

  /** An exchange keeps a history alternating. */
  lemma ConverseKeepsAlternation(history: seq<Turn>, userText: string, gen: Generator)
    requires Alternates(history)
    requires Converse(history, userText, gen).Answered?
    ensures Alternates(Converse(history, userText, gen).history)
  {
    var x := Converse(history, userText, gen);
    assert x.history == history + [Turn(User, userText), Turn(Model, x.answer)];
    forall i | 0 <= i < |x.history|
      ensures x.history[i].role == (if i % 2 == 0 then User else Model)
    {
      if i < |history| {
        assert x.history[i] == history[i];
      }
    }
  }
}
