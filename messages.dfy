/**
 * `process_messages`: the role/content filter that turns the graph's
 * messages into the API's `Message` list. The same comprehension appears in
 * app/core/common/graph_utils.py and app/core/langgraph/graph_utils.py; it is
 * defined once here.
 *
 * `convert_to_openai_messages` is a library call: the input here is its
 * output, one role and one content per message.
 */
module Messages {

  /** The content of a converted message: text, or absent (`None`). */
  datatype Content = Text(text: string) | NoContent

  /** One message after `convert_to_openai_messages`. */
  datatype OpenAiMessage = OpenAiMessage(role: string, content: Content)

  /** The API's `Message(role, content)`. */
  datatype Message = Message(role: string, content: string)

  /** Python truthiness of the content: absent and empty text are falsy. */
  predicate HasContent(c: Content) {
    c.Text? && c.text != ""
  }

  /** `str(content)`. */
  function Str(c: Content): string {
    match c
    case Text(s) => s
    case NoContent => "None"
  }

  /** The comprehension's condition: the role is assistant or user and the content is truthy. */
  predicate Kept(m: OpenAiMessage) {
    (m.role == "assistant" || m.role == "user") && HasContent(m.content)
  }

  /** `Message(role=message["role"], content=str(message["content"]))`. */
  function ToMessage(m: OpenAiMessage): Message {
    Message(m.role, Str(m.content))
  }

  /** `process_messages`: keep the assistant and user messages that have content, in order. */
  function ProcessMessages(ms: seq<OpenAiMessage>): (r: seq<Message>)
    ensures |r| <= |ms|
    ensures forall k :: 0 <= k < |r| ==> (r[k].role == "assistant" || r[k].role == "user") && r[k].content != ""
  {
    if ms == [] then []
    else (if Kept(ms[0]) then [ToMessage(ms[0])] else []) + ProcessMessages(ms[1..])
  }

  /** The positions, from `from` on, of the messages the filter keeps, in increasing order. */
  function KeptIndices(ms: seq<OpenAiMessage>, from: nat): seq<nat>
    decreases |ms| - from
  {
    if from >= |ms| then []
    else (if Kept(ms[from]) then [from] else []) + KeptIndices(ms, from + 1)
  }

  lemma {:induction false} KeptIndicesFrom(ms: seq<OpenAiMessage>, from: nat)
    requires from <= |ms|
    ensures var idx := KeptIndices(ms, from);
      && |idx| == |ProcessMessages(ms[from..])|
      && (forall k :: 0 <= k < |idx| ==> from <= idx[k] < |ms| && ProcessMessages(ms[from..])[k] == ToMessage(ms[idx[k]]))
      && (forall k, l :: 0 <= k < l < |idx| ==> idx[k] < idx[l])
      && (forall i :: from <= i < |ms| ==> (Kept(ms[i]) <==> i in idx))
    decreases |ms| - from
  {
    if from < |ms| {
      KeptIndicesFrom(ms, from + 1);
      assert ms[from..][1..] == ms[from + 1..];
    }
  }

  /**
   * The output is the input's kept messages, converted, in input order:
   * there is a strictly increasing selection of input positions whose
   * messages, converted, are the output, and it selects exactly the
   * positions whose role is assistant or user and whose content is truthy.
   */
  lemma ProcessMessagesSelects(ms: seq<OpenAiMessage>)
    ensures var idx := KeptIndices(ms, 0);
      && |idx| == |ProcessMessages(ms)|
      && (forall k :: 0 <= k < |idx| ==> idx[k] < |ms| && ProcessMessages(ms)[k] == ToMessage(ms[idx[k]]))
      && (forall k, l :: 0 <= k < l < |idx| ==> idx[k] < idx[l])
      && (forall i :: 0 <= i < |ms| ==> (Kept(ms[i]) <==> i in idx))
  {
    KeptIndicesFrom(ms, 0);
    assert ms[0..] == ms;
  }

  /** A `Message` fed back through the conversion: its role and its text. */
  function Lift(rs: seq<Message>): (r: seq<OpenAiMessage>)
    ensures |r| == |rs|
    ensures forall k :: 0 <= k < |rs| ==> r[k] == OpenAiMessage(rs[k].role, Text(rs[k].content))
  {
    if rs == [] then [] else [OpenAiMessage(rs[0].role, Text(rs[0].content))] + Lift(rs[1..])
  }

  /** Filtering what the filter produced changes nothing: the filter is idempotent. */
  lemma {:induction false} ProcessMessagesIdempotent(ms: seq<OpenAiMessage>)
    ensures ProcessMessages(Lift(ProcessMessages(ms))) == ProcessMessages(ms)
  {
    if ms != [] {
      ProcessMessagesIdempotent(ms[1..]);
      var head := if Kept(ms[0]) then [ToMessage(ms[0])] else [];
      var rest := ProcessMessages(ms[1..]);
      assert ProcessMessages(ms) == head + rest;
      LiftAppend(head, rest);
      ProcessMessagesAppend(Lift(head), Lift(rest));
    }
  }

  lemma {:induction false} LiftAppend(a: seq<Message>, b: seq<Message>)
    ensures Lift(a + b) == Lift(a) + Lift(b)
  {
  }

  lemma {:induction false} ProcessMessagesAppend(a: seq<OpenAiMessage>, b: seq<OpenAiMessage>)
    ensures ProcessMessages(a + b) == ProcessMessages(a) + ProcessMessages(b)
  {
    if a != [] {
      assert (a + b)[1..] == a[1..] + b;
      ProcessMessagesAppend(a[1..], b);
    } else {
      assert a + b == b;
    }
  }
}
