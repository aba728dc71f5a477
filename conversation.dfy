/**
 * The conversation manager: an append-only log of chat records and a context
 * dictionary that the system hands to every agent call.
 */
module Conversation {
  import opened Wrappers
  import opened AgentCore

  /** One history entry; its timestamp is always `None` and is left out. */
  datatype Record = Record(role: string, content: string, agent: Option<string>)

  /**
   * Python's `h[-limit:]`: the last `limit` records for a positive `limit`,
   * everything for 0, and everything but the first `-limit` records for a
   * negative `limit`.
   */
  function RecentWindow(h: seq<Record>, limit: int): (r: seq<Record>)
    ensures |r| <= |h| && r == h[|h| - |r|..]
    ensures limit > 0 ==> |r| == if limit < |h| then limit else |h|
    ensures limit == 0 ==> r == h
    ensures limit < 0 ==> |r| == if -limit < |h| then |h| + limit else 0
  {
    if limit > 0 then (if limit < |h| then h[|h| - limit..] else h)
    else if limit == 0 then h
    else if -limit < |h| then h[-limit..]
    else []
  }

  /** Records the model sees: those of the user and of the assistant. */
  predicate Kept(rec: Record) {
    rec.role == "user" || rec.role == "assistant"
  }

  /** The chat message a record becomes, if any: user and assistant records only. */
  function MessageOf(rec: Record): seq<ChatMessage> {
    if rec.role == "user" then [HumanMessage(rec.content)]
    else if rec.role == "assistant" then [AIMessage(rec.content)]
    else []
  }

  /** The records as chat messages, in order, other roles dropped. */
  function Formatted(records: seq<Record>): (r: seq<ChatMessage>)
    ensures |r| <= |records|
  {
    if |records| == 0 then []
    else Formatted(records[..|records| - 1]) + MessageOf(records[|records| - 1])
  }

  /** Formatting distributes over concatenation: each record is formatted on its own. */
  lemma {:induction false} FormattedAppend(a: seq<Record>, b: seq<Record>)
    ensures Formatted(a + b) == Formatted(a) + Formatted(b)
    decreases |b|
  {
    if |b| == 0 {
      assert a + b == a;
    } else {
      var b' := b[..|b| - 1];
      assert (a + b)[..|a + b| - 1] == a + b';
      FormattedAppend(a, b');
    }
  }

  /** Records other than user and assistant ones contribute nothing. */
  lemma {:induction false} FormattedCount(records: seq<Record>)
    ensures |Formatted(records)| == |set k | 0 <= k < |records| && Kept(records[k])|
    decreases |records|
  {
    if |records| > 0 {
      var n := |records| - 1;
      var front := records[..n];
      FormattedCount(front);
      var s := set k | 0 <= k < |records| && Kept(records[k]);
      var s' := set k | 0 <= k < n && Kept(front[k]);
      if Kept(records[n]) {
        assert s == s' + {n};
      } else {
        assert s == s';
      }
    }
  }

  /** `get_context(key)`: one entry for a non-empty key, else the whole dictionary. */
  datatype ContextView = Entry(value: Option<string>) | Whole(context: Context)

  class ConversationManager {
    var history: seq<Record>
    var context: Context

    constructor()
      ensures history == [] && context == map[]
    {
      history := [];
      context := map[];
    }

    /** `add_message`: exactly one record goes on the end; nothing else changes. */
    method AddMessage(role: string, content: string, agentName: Option<string>)
      modifies this
      ensures history == old(history) + [Record(role, content, agentName)]
      ensures context == old(context)
    {
      history := history + [Record(role, content, agentName)];
    }

    /** `get_recent_messages(limit)` */
    function GetRecentMessages(limit: int): (r: seq<Record>)
      reads this
      ensures r == RecentWindow(history, limit)
    {
      RecentWindow(history, limit)
    }

    /** `set_context(key, value)` */
    method SetContext(key: string, value: string)
      modifies this
      ensures context == old(context)[key := value]
      ensures history == old(history)
    {
      context := context[key := value];
    }

    /** `get_context(key)` */
    function GetContext(key: Option<string>): (r: ContextView)
      reads this
      ensures key.Some? && key.value != "" ==> r == Entry(if key.value in context then Some(context[key.value]) else None)
      ensures key.None? || key.value == "" ==> r == Whole(context)
    {
      if key.Some? && key.value != "" then Entry(if key.value in context then Some(context[key.value]) else None)
      else Whole(context)
    }

    /** `clear_history()`: the log is emptied, the context kept. */
    method ClearHistory()
      modifies this
      ensures history == [] && context == old(context)
    {
      history := [];
    }

    /** `format_history_for_llm(limit)`: the recent window as chat messages. */
    method FormatHistoryForLlm(limit: int) returns (r: seq<ChatMessage>)
      ensures r == Formatted(RecentWindow(history, limit))
    {
      var recent := GetRecentMessages(limit);
      r := [];
      var i := 0;
      while i < |recent|
        invariant 0 <= i <= |recent|
        invariant r == Formatted(recent[..i])
      {
        var msg := recent[i];
        assert recent[..i + 1][..i] == recent[..i];
        if msg.role == "user" {
          r := r + [HumanMessage(msg.content)];
        } else if msg.role == "assistant" {
          r := r + [AIMessage(msg.content)];
        }
        i := i + 1;
      }
      assert recent[..i] == recent;
    }
  }
}
