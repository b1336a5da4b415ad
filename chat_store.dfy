/** The chat message store: a list of messages with append, replace and
    clear actions. */
module ChatStore {

  datatype Role = User | Assistant

  datatype Message = Message(role: Role, content: string, id: int)

  /** The two greeting messages the store starts with. `Date.now()` is read
      once per message: the first is stamped `t1`, the second `t2 + 1`. A
      clock that does not run backwards, and only such a clock, gives them
      increasing ids. */
  function Greeting(t1: int, t2: int): (r: seq<Message>)
    ensures |r| == 2 && r[0].id == t1 && r[1].id == t2 + 1
    ensures forall m :: m in r ==> m.role == Assistant
    ensures r[0].id < r[1].id <==> t1 <= t2
  {
    [Message(Assistant, "Hi I'm Daniel-Bot \U{1F916}", t1),
     Message(Assistant, "Feel free to ask me anything!", t2 + 1)]
  }

  class Store {
    var messages: seq<Message>

    /** The store as created, the two `Date.now()` calls reading `t1` and
        then `t2`. */
    constructor (t1: int, t2: int)
      ensures messages == Greeting(t1, t2)
    {
      messages := Greeting(t1, t2);
    }

    /** `addMessage(msg)`: the message goes last, the earlier ones stay in
        order. */
    method AddMessage(msg: Message)
      modifies this
      ensures messages == old(messages) + [msg]
      ensures |messages| == |old(messages)| + 1 && messages[|messages| - 1] == msg
      ensures messages[..|old(messages)|] == old(messages)
    {
      messages := messages + [msg];
    }

    /** `setMessages(msgs)`. */
    method SetMessages(msgs: seq<Message>)
      modifies this
      ensures messages == msgs
    {
      messages := msgs;
    }

    /** `clearMessages()`. */
    method ClearMessages()
      modifies this
      ensures messages == []
    {
      messages := [];
    }
  }

  /** Clearing and then adding one message leaves exactly that message. */
  method ClearThenAdd(store: Store, m: Message)
    modifies store
    ensures store.messages == [m]
  {
    store.ClearMessages();
    store.AddMessage(m);
  }
}
