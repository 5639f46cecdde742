/**
  * The in-memory conversation history (the `context_store` module): a
  * dictionary from conversation id to the list of messages exchanged so far.
  */
module ContextStore {

  /** One stored turn: a role (`user` or `assistant`) and its text. */
  datatype Message = Message(role: string, content: string)

  type Conversations = map<string, seq<Message>>

  /** The history of `id`: its list if present, otherwise empty. */
  function Lookup(m: Conversations, id: string): (h: seq<Message>)
    ensures id !in m ==> h == []
  {
    if id in m then m[id] else []
  }

  /** The store after appending `msgs` to `id`, creating the entry when absent. */
  function Appended(m: Conversations, id: string, msgs: seq<Message>): (m': Conversations)
    ensures m'.Keys == m.Keys + {id}
    ensures Lookup(m', id) == Lookup(m, id) + msgs
    ensures forall other :: other != id ==> Lookup(m', other) == Lookup(m, other)
  {
    m[id := Lookup(m, id) + msgs]
  }

  /** The store after dropping `id`; an unknown id leaves it as it was. */
  function Removed(m: Conversations, id: string): (m': Conversations)
    ensures m'.Keys == m.Keys - {id}
    ensures Lookup(m', id) == []
    ensures forall other :: other != id ==> Lookup(m', other) == Lookup(m, other)
    ensures id !in m ==> m' == m
  {
    m - {id}
  }

  class ConversationStore {
    var conversations: Conversations

    /** The store starts empty at process start. */
    constructor ()
      ensures conversations == map[]
    {
      conversations := map[];
    }

    function History(id: string): seq<Message>
      reads this
    {
      Lookup(conversations, id)
    }

    /** `get_history`: the stored list of `id`, or empty; a value, so later changes on either side do not reach the other. */
    method GetHistory(id: string) returns (h: seq<Message>)
      ensures id in conversations ==> h == conversations[id]
      ensures id !in conversations ==> h == []
    {
      if id in conversations {
        h := conversations[id];
      } else {
        h := [];
      }
    }

    /** `append_messages`: extends the list of `id` in call order, creating it first when absent. */
    method AppendMessages(id: string, msgs: seq<Message>)
      modifies this
      ensures conversations == Appended(old(conversations), id, msgs)
      ensures History(id) == old(History(id)) + msgs
      ensures forall other :: other != id ==> History(other) == old(History(other))
    {
      if id !in conversations {
        conversations := conversations[id := []];
      }
      conversations := conversations[id := conversations[id] + msgs];
    }

    /** `clear_conversation`: forgets `id`; nothing happens when it is unknown. */
    method ClearConversation(id: string)
      modifies this
      ensures conversations == Removed(old(conversations), id)
      ensures History(id) == []
      ensures forall other :: other != id ==> History(other) == old(History(other))
    {
      conversations := conversations - {id};
    }
  }

  // ---- Histories produced by a sequence of store operations ----

  datatype StoreOp = Append(id: string, msgs: seq<Message>) | Clear(id: string)

  /** The store after one operation. */
  function Apply(m: Conversations, op: StoreOp): Conversations {
    match op
    case Append(id, msgs) => Appended(m, id, msgs)
    case Clear(id) => Removed(m, id)
  }

  /** An operation other than a clear of `id` leaves the history of `id` as it was, extended by what it appends there. */
  lemma LookupAfter(m: Conversations, op: StoreOp, id: string)
    requires op != Clear(id)
    ensures Lookup(Apply(m, op), id) == Lookup(m, id) + (if op.Append? && op.id == id then op.msgs else [])
  {
  }

  /** The store after applying `ops` in order, starting from `m`. */
  function Run(m: Conversations, ops: seq<StoreOp>): Conversations
    decreases |ops|
  {
    if ops == [] then m
    else Apply(Run(m, ops[..|ops| - 1]), ops[|ops| - 1])
  }

  /** The messages of the appends to `id` among `ops`, concatenated in call order. */
  function AppendedTo(ops: seq<StoreOp>, id: string): seq<Message>
    decreases |ops|
  {
    if ops == [] then []
    else AppendedTo(ops[..|ops| - 1], id)
         + (if ops[|ops| - 1].Append? && ops[|ops| - 1].id == id then ops[|ops| - 1].msgs else [])
  }

  /** An id that no operation has appended to has an empty history, whatever else happened. */
  lemma {:induction false} NeverAppendedIsEmpty(ops: seq<StoreOp>, id: string)
    requires forall k :: 0 <= k < |ops| ==> !(ops[k].Append? && ops[k].id == id)
    ensures Lookup(Run(map[], ops), id) == []
    decreases |ops|
  {
    if ops != [] {
      NeverAppendedIsEmpty(ops[..|ops| - 1], id);
    }
  }

  /**
    * Without a clear of `id`, its history is exactly the messages appended to
    * it, in call order; operations on other ids do not touch it.
    */
  lemma {:induction false} HistoryIsAppendsInOrder(ops: seq<StoreOp>, id: string)
    requires forall k :: 0 <= k < |ops| ==> ops[k] != Clear(id)
    ensures Lookup(Run(map[], ops), id) == AppendedTo(ops, id)
    decreases |ops|
  {
    if ops != [] {
      HistoryIsAppendsInOrder(ops[..|ops| - 1], id);
    }
  }

  /** A clear of `id` forgets everything before it: the history is what was appended since. */
  lemma {:induction false} ClearForgetsEarlierTurns(before: seq<StoreOp>, after: seq<StoreOp>, id: string)
    requires forall k :: 0 <= k < |after| ==> after[k] != Clear(id)
    ensures Lookup(Run(map[], before + [Clear(id)] + after), id) == AppendedTo(after, id)
    decreases |after|
  {
    var ops := before + [Clear(id)] + after;
    if after == [] {
      assert ops[..|ops| - 1] == before && ops[|ops| - 1] == Clear(id);
      assert Run(map[], ops) == Removed(Run(map[], before), id);
    } else {
      var earlier, last := after[..|after| - 1], after[|after| - 1];
      assert ops[..|ops| - 1] == before + [Clear(id)] + earlier && ops[|ops| - 1] == last;
      ClearForgetsEarlierTurns(before, earlier, id);
      var m := Run(map[], before + [Clear(id)] + earlier);
      assert Run(map[], ops) == Apply(m, last);
      LookupAfter(m, last, id);
      assert AppendedTo(after, id) == AppendedTo(earlier, id) + (if last.Append? && last.id == id then last.msgs else []);
    }
  }
}
