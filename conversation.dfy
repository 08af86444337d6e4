/**
 * The conversation the agent reads its request from, and the backwards scan
 * of parse_user_query (graph.py:62-74) that picks the latest human request.
 */
module Conversation {
  import opened Wrappers
  import opened PyValues

  /**
   * An entry of the state's message list: a plain dict (the form LangGraph
   * Studio sends), a HumanMessage object, or an AIMessage object.
   */
  datatype Message =
    | DictMessage(entries: Dict)
    | HumanMessage(content: string)
    | AiMessage(content: string)

  /**
   * The messages the scan stops at: a dict whose `type` is 'human' and whose
   * `content` is truthy, or any HumanMessage, even one with empty content.
   */
  predicate IsHumanQuery(m: Message)
  {
    match m
    case DictMessage(d) =>
      Lookup(d, "type") == Some(JStr("human")) && Lookup(d, "content").Some? && Truthy(Lookup(d, "content").value)
    case HumanMessage(_) => true
    case AiMessage(_) => false
  }

  /** The request a human message carries: `message['content']` or `message.content`. */
  function QueryOf(m: Message): Json
    requires IsHumanQuery(m)
  {
    match m
    case DictMessage(d) => Lookup(d, "content").value
    case HumanMessage(c) => JStr(c)
  }

  /** The query the scan settles on when no message qualifies. */
  const NoQuery: Json := JStr("")

  /**
   * The request of the latest human message: the last message that stops the
   * scan gives the query, and every message after it is passed over. With no
   * such message the query is the empty string.
   */
  function LatestHumanContent(ms: seq<Message>): (q: Json)
    ensures (exists i :: 0 <= i < |ms| && IsHumanQuery(ms[i])) ==>
              exists i :: && 0 <= i < |ms| && IsHumanQuery(ms[i]) && q == QueryOf(ms[i])
                          && forall j :: i < j < |ms| ==> !IsHumanQuery(ms[j])
    ensures (forall i :: 0 <= i < |ms| ==> !IsHumanQuery(ms[i])) ==> q == NoQuery
  {
    if ms == [] then NoQuery
    else if IsHumanQuery(ms[|ms| - 1]) then QueryOf(ms[|ms| - 1])
    else
      var front := ms[..|ms| - 1];
      assert forall j :: 0 <= j < |front| ==> front[j] == ms[j];
      LatestHumanContent(front)
  }

  /** The loop of graph.py:65-74: walk the messages from the newest and stop at the first human request. */
  method LatestHumanQuery(ms: seq<Message>) returns (query: Json)
    ensures query == LatestHumanContent(ms)
  {
    query := NoQuery;
    var i := |ms|;
    while i > 0
      invariant 0 <= i <= |ms|
      invariant forall j :: i <= j < |ms| ==> !IsHumanQuery(ms[j])
      invariant query == NoQuery
    {
      i := i - 1;
      match ms[i]
      case DictMessage(d) =>
        if Lookup(d, "type") == Some(JStr("human")) && Lookup(d, "content").Some? && Truthy(Lookup(d, "content").value) {
          query := Lookup(d, "content").value;
          return;
        }
      case HumanMessage(c) =>
        query := JStr(c);
        return;
      case AiMessage(_) =>
    }
  }
}
