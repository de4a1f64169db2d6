/** The table from message types to handlers. A handler is known by its identity; calling
    it is recorded, with the bytes it was given, in `invocations`. */
module Dispatching {
  import opened Framing

  type HandlerId = nat

  datatype Invocation = Invocation(handler: HandlerId, data: seq<byte>)

  /** The handler call caused by one message: none if its type is not registered. */
  function Delivery(handlers: map<int, HandlerId>, message: seq<byte>): seq<Invocation> {
    if |message| >= HEADER_SIZE && MessageType(message) in handlers
    then [Invocation(handlers[MessageType(message)], message)]
    else []
  }

  /** The handler calls caused by a list of messages, in order. */
  function Deliveries(handlers: map<int, HandlerId>, messages: seq<seq<byte>>): seq<Invocation> {
    if messages == [] then []
    else Delivery(handlers, messages[0]) + Deliveries(handlers, messages[1..])
  }

  predicate AreFrames(messages: seq<seq<byte>>) {
    forall i :: 0 <= i < |messages| ==> IsFrame(messages[i])
  }

  /** How many of the messages are of a registered type. */
  function Registered(handlers: map<int, HandlerId>, messages: seq<seq<byte>>): (n: nat)
    requires AreFrames(messages)
  {
    if messages == [] then 0
    else (if MessageType(messages[0]) in handlers then 1 else 0) + Registered(handlers, messages[1..])
  }

  /** From `was` to `now` there is one call for each message of a registered type and no other.
      The call for message `i` comes behind those for the messages before it, goes to the handler
      registered for its type and is given all its bytes. */
  ghost predicate EachReachesItsHandler(handlers: map<int, HandlerId>, messages: seq<seq<byte>>,
                                        was: seq<Invocation>, now: seq<Invocation>) {
    && AreFrames(messages)
    && |now| == |was| + Registered(handlers, messages) && now[..|was|] == was
    && forall i {:trigger messages[i]} :: 0 <= i < |messages| && MessageType(messages[i]) in handlers ==>
         var k := |was| + Registered(handlers, messages[..i]);
         k < |now| && now[k] == Invocation(handlers[MessageType(messages[i])], messages[i])
  }

  lemma DeliveriesReach(handlers: map<int, HandlerId>, messages: seq<seq<byte>>, was: seq<Invocation>)
    requires AreFrames(messages)
    ensures EachReachesItsHandler(handlers, messages, was, was + Deliveries(handlers, messages))
  {
    hide Deliveries, Registered, MessageType;
    DeliveriesCounted(handlers, messages);
    forall i {:trigger messages[i]} | 0 <= i < |messages| && MessageType(messages[i]) in handlers
      ensures var k := Registered(handlers, messages[..i]);
              && k < |Deliveries(handlers, messages)|
              && Deliveries(handlers, messages)[k] == Invocation(handlers[MessageType(messages[i])], messages[i])
    {
      DeliveryAt(handlers, messages, i);
    }
  }

  lemma {:induction false} DeliveriesCounted(handlers: map<int, HandlerId>, messages: seq<seq<byte>>)
    requires AreFrames(messages)
    ensures |Deliveries(handlers, messages)| == Registered(handlers, messages)
  {
    hide MessageType;
    if messages == [] {
    } else {
      DeliveriesCounted(handlers, messages[1..]);
    }
  }

  lemma {:induction false} DeliveryAt(handlers: map<int, HandlerId>, messages: seq<seq<byte>>, i: nat)
    requires AreFrames(messages) && i < |messages| && MessageType(messages[i]) in handlers
    ensures var k := Registered(handlers, messages[..i]);
            && k < |Deliveries(handlers, messages)|
            && Deliveries(handlers, messages)[k] == Invocation(handlers[MessageType(messages[i])], messages[i])
  {
    hide MessageType;
    if i == 0 {
    } else {
      DeliveryAt(handlers, messages[1..], i - 1);
      assert messages[..i][1..] == messages[1..][..i - 1];
    }
  }

  /** With a handler for every message there are as many calls as messages, in their order. */
  lemma AllReach(handlers: map<int, HandlerId>, messages: seq<seq<byte>>, was: seq<Invocation>, now: seq<Invocation>)
    requires EachReachesItsHandler(handlers, messages, was, now)
    requires forall i :: 0 <= i < |messages| ==> MessageType(messages[i]) in handlers
    ensures |now| == |was| + |messages|
    ensures forall i :: 0 <= i < |messages| ==>
              now[|was|..][i] == Invocation(handlers[MessageType(messages[i])], messages[i])
  {
    hide MessageType, Registered;
    forall i: nat | i <= |messages|
      ensures Registered(handlers, messages[..i]) == i
    {
      AllCounted(handlers, messages[..i]);
    }
    assert messages[..|messages|] == messages;
  }

  lemma {:induction false} AllCounted(handlers: map<int, HandlerId>, messages: seq<seq<byte>>)
    requires AreFrames(messages)
    requires forall i :: 0 <= i < |messages| ==> MessageType(messages[i]) in handlers
    ensures Registered(handlers, messages) == |messages|
  {
    hide MessageType;
    if messages == [] {
    } else {
      AllCounted(handlers, messages[1..]);
    }
  }

  class MessageDispatcher {
    var handlers: map<int, HandlerId>
    var invocations: seq<Invocation>

    constructor ()
      ensures handlers == map[] && invocations == []
    {
      handlers, invocations := map[], [];
    }

    /** The first registration of a type wins; a later one changes nothing. */
    method RegisterHandler(messageType: int, handler: HandlerId)
      modifies this
      ensures messageType in handlers
      ensures handlers[messageType] ==
              if messageType in old(handlers) then old(handlers)[messageType] else handler
      ensures handlers - {messageType} == old(handlers) - {messageType}
      ensures invocations == old(invocations)
    {
      if messageType in handlers {
        return;
      }
      handlers := handlers[messageType := handler];
    }

    method Dispatch(messageType: int, data: seq<byte>) returns (found: bool)
      modifies this
      ensures handlers == old(handlers)
      ensures found == (messageType in handlers)
      ensures invocations == old(invocations)
                             + if found then [Invocation(handlers[messageType], data)] else []
    {
      if messageType !in handlers {
        return false;
      }
      invocations := invocations + [Invocation(handlers[messageType], data)];
      return true;
    }
  }
}
