/** The message assembler: retrieved context first, then the session's chat
    history, each `(role, content)` pair turned into a `{role, content}` message. */
module Messages {

  /** A `(role, content)` tuple, as retrieval returns it and as a session's
      history stores it. */
  type Pair = (string, string)

  /** A `{"role": ..., "content": ...}` dictionary handed to the model. */
  datatype Message = Message(role: string, content: string)

  function AsMessage(p: Pair): Message
  {
    Message(p.0, p.1)
  }

  /** One list comprehension: each pair becomes a message, in order. */
  function ToMessages(pairs: seq<Pair>): (r: seq<Message>)
    ensures |r| == |pairs|
    ensures forall i :: 0 <= i < |pairs| ==> r[i] == AsMessage(pairs[i])
  {
    if pairs == [] then [] else [AsMessage(pairs[0])] + ToMessages(pairs[1..])
  }

  /** `generate_messages(similar_context, chat_history)`: the context messages
      followed by the history messages, nothing dropped, merged or reordered. */
  function GenerateMessages(context: seq<Pair>, history: seq<Pair>): (r: seq<Message>)
    ensures |r| == |context| + |history|
    ensures forall i :: 0 <= i < |context| ==> r[i] == AsMessage(context[i])
    ensures forall j :: 0 <= j < |history| ==> r[|context| + j] == AsMessage(history[j])
  {
    ToMessages(context) + ToMessages(history)
  }

  /** The assembled messages are exactly the concatenated inputs, mapped one to one. */
  lemma AssembleIsMapOfConcat(context: seq<Pair>, history: seq<Pair>)
    ensures GenerateMessages(context, history) == ToMessages(context + history)
  {
  }

  /** No deduplication: a pair found both in the context and in the history is
      handed to the model twice, the context copy first. */
  lemma NoDeduplication(context: seq<Pair>, history: seq<Pair>, p: Pair)
    requires p in context && p in history
    ensures exists i, j :: 0 <= i < |context| <= j < |context| + |history|
                           && GenerateMessages(context, history)[i] == AsMessage(p)
                           && GenerateMessages(context, history)[j] == AsMessage(p)
  {
    var r := GenerateMessages(context, history);
    var i :| 0 <= i < |context| && context[i] == p;
    var j :| 0 <= j < |history| && history[j] == p;
    assert r[i] == AsMessage(p);
    assert r[|context| + j] == AsMessage(p);
  }

  /** Nothing is filtered: every input pair contributes its own message. */
  lemma NothingDropped(context: seq<Pair>, history: seq<Pair>)
    ensures multiset(GenerateMessages(context, history))
         == multiset(ToMessages(context)) + multiset(ToMessages(history))
  {
  }

  /** With no retrieved context, the messages are the history alone. */
  lemma EmptyContext(history: seq<Pair>)
    ensures GenerateMessages([], history) == ToMessages(history)
  {
  }

  /** With an empty history, the messages are the retrieved context alone. */
  lemma EmptyHistory(context: seq<Pair>)
    ensures GenerateMessages(context, []) == ToMessages(context)
  {
  }
}
