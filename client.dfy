/**
 * The older client of src/client.js (class `Client`): a counter `sequenceN` starting at 1, a
 * `sendQueue` held while the socket is not open, a `mapper` from sequence number to the
 * resolver of the waiting request, and `subscribitions` keyed by the server's subscription id.
 * Frames handed to the socket are appended to `sent`, emitted events to `emitted`.
 */
module LegacyClient {
  import opened Base
  import opened Json
  import opened JsMap
  import opened Frames

  /** Which public call is awaiting a promise: `subscribe` continues after it resolves. */
  datatype CallKind = SubscribeCall | UnsubscribeCall

  /** What `_handleMessage` resolves with, the reply's fields renamed. */
  datatype ClientResponse =
    | SubAck(msgType: Value, sequence: Value, code: Value, subId: Value, data: Value)
    | UnsubAck(msgType: Value, sequence: Value, code: Value)

  /** The fields a `Subscription` copies from a response; fields the response lacks read `undefined`. */
  datatype Subscription = Subscription(msgType: Value, sequence: Value, code: Value, subId: Value, data: Value)

  function SubscriptionOf(r: ClientResponse): Subscription
  {
    match r
    case SubAck(t, s, c, id, d) => Subscription(t, s, c, id, d)
    case UnsubAck(t, s, c) => Subscription(t, s, c, Undefined, Undefined)
  }

  datatype ClientSettlement = Waiting | Fulfilled(response: ClientResponse) | Rejected(reason: string)

  /** One awaited request: who awaits it and the state of its promise. */
  datatype Call = Call(kind: CallKind, state: ClientSettlement)

  datatype ClientEvent = ClientEvent(msgType: Value, subId: Value, data: Value)

  const SUBSCRIBE_TAG := 1
  const UNSUBSCRIBE_TAG := 2
  const EVENT_TAG := 3

  /** The error a reply for an unknown sequence number throws: `resolve` is undefined. */
  const NO_RESOLVER := "TypeError: resolve is not a function"

  /** Settles a call's promise; a promise that has settled ignores later resolves and rejects. */
  function SettleCall(calls: seq<Call>, c: nat, s: ClientSettlement): (r: seq<Call>)
    ensures |r| == |calls|
    ensures forall q :: 0 <= q < |calls| && q != c ==> r[q] == calls[q]
    ensures c < |calls| && !calls[c].state.Waiting? ==> r[c] == calls[c]
    ensures c < |calls| && calls[c].state.Waiting? ==> r[c] == Call(calls[c].kind, s)
  {
    if c < |calls| && calls[c].state.Waiting? then calls[c := calls[c].(state := s)] else calls
  }

  /**
   * `subscribitions` after a resolve of call `c` with `response`: when the resolve takes effect
   * on a `subscribe` call, that call goes on to store a Subscription under `response.subId`.
   */
  function AfterResolve(subs: Entries<Value, Subscription>, calls: seq<Call>, c: nat, response: ClientResponse)
    : Entries<Value, Subscription>
  {
    if c < |calls| && calls[c].state.Waiting? && calls[c].kind == SubscribeCall
    then Set(subs, if response.SubAck? then response.subId else Undefined, SubscriptionOf(response))
    else subs
  }

  /** A resolved subscribe call's subscription is found under the subscription id the server sent. */
  lemma AfterResolveKeysBySubId(subs: Entries<Value, Subscription>, calls: seq<Call>, c: nat,
                                t: Value, s: Value, code: Value, id: Value, d: Value)
    requires c < |calls| && calls[c] == Call(SubscribeCall, Waiting)
    ensures Get(AfterResolve(subs, calls, c, SubAck(t, s, code, id, d)), id) == Some(Subscription(t, s, code, id, d))
  {
  }

  class Client {
    const address: string
    var subscribitions: Entries<Value, Subscription>
    /** Sequence number to the index in `calls` of the request whose resolver it holds. */
    var mapper: map<int, nat>
    var sequenceN: nat
    var sendQueue: seq<string>
    var ws: Option<ReadyState>
    var sent: seq<string>
    var emitted: seq<ClientEvent>
    var calls: seq<Call>
    /** The sequence numbers issued so far, in order. */
    ghost var issued: seq<nat>

    ghost predicate Valid()
      reads this
    {
      && sequenceN >= 1
      && |issued| == sequenceN - 1
      && (forall i :: 0 <= i < |issued| ==> issued[i] == i + 1)
      && (forall k :: k in mapper ==> mapper[k] < |calls|)
      && DistinctKeys(subscribitions)
    }

    constructor (address: string)
      ensures Valid() && this.address == address
      ensures subscribitions == [] && mapper == map[] && sequenceN == 1 && sendQueue == []
      ensures ws == None && sent == [] && emitted == [] && calls == []
    {
      this.address := address;
      subscribitions := [];
      mapper := map[];
      sequenceN := 1;
      sendQueue := [];
      ws := None;
      sent := [];
      emitted := [];
      calls := [];
      issued := [];
    }

    /** `connect`: after the credentials (not modelled) a new socket starts connecting. */
    method Connect()
      modifies this`ws
      ensures ws == Some(Connecting)
    {
      ws := Some(Connecting);
    }

    /** The `open` handler: transmits every queued frame in order, then empties the queue. */
    method OnOpen()
      requires Valid() && ws.Some?
      modifies this`ws, this`sent, this`sendQueue
      ensures Valid()
      ensures ws == Some(Open)
      ensures sent == old(sent) + old(sendQueue) && sendQueue == []
    {
      ws := Some(Open);
      var q := sendQueue;
      for i := 0 to |q|
        invariant sent == old(sent) + q[..i]
        invariant ws == Some(Open) && sendQueue == old(sendQueue)
      {
        sent := sent + [q[i]];
      }
      assert q[..|q|] == q;
      sendQueue := [];
    }

    /** `send`: transmits when the socket is open, otherwise appends to the end of `sendQueue`. */
    method Send(data: string)
      modifies this`sent, this`sendQueue
      ensures ws == Some(Open) ==> sent == old(sent) + [data] && sendQueue == old(sendQueue)
      ensures ws != Some(Open) ==> sendQueue == old(sendQueue) + [data] && sent == old(sent)
    {
      if ws == Some(Open) {
        sent := sent + [data];
      } else {
        sendQueue := sendQueue + [data];
      }
    }

    /**
     * `_awaitResponse`: a new promise's resolver is registered under `seqN` in `mapper`, then the
     * frame is sent or queued. `kind` says which public call awaits the promise.
     */
    method AwaitResponse(payload: string, seqN: nat, kind: CallKind) returns (call: nat)
      requires Valid()
      modifies this`mapper, this`calls, this`sent, this`sendQueue
      ensures Valid()
      ensures call == old(|calls|) && calls == old(calls) + [Call(kind, Waiting)]
      ensures mapper == old(mapper)[seqN := call]
      ensures ws == Some(Open) ==> sent == old(sent) + [payload] && sendQueue == old(sendQueue)
      ensures ws != Some(Open) ==> sendQueue == old(sendQueue) + [payload] && sent == old(sent)
    {
      call := |calls|;
      calls := calls + [Call(kind, Waiting)];
      mapper := mapper[seqN := call];
      Send(payload);
    }

    /** `subscribe(uri)`: takes the current `sequenceN`, increments it, and awaits the reply to `[1, <seqN>, "<uri>"]`. */
    method Subscribe(uri: string) returns (call: nat)
      requires Valid()
      modifies this`sequenceN, this`issued, this`mapper, this`calls, this`sent, this`sendQueue
      ensures Valid()
      ensures sequenceN == old(sequenceN) + 1 && issued == old(issued) + [old(sequenceN)]
      ensures forall n :: n in old(issued) ==> n < old(sequenceN)
      ensures call == old(|calls|) && calls == old(calls) + [Call(SubscribeCall, Waiting)]
      ensures mapper == old(mapper)[old(sequenceN) := call]
      ensures var frame := ClientSubscribeFrame(old(sequenceN), uri);
              if ws == Some(Open) then sent == old(sent) + [frame] && sendQueue == old(sendQueue)
              else sendQueue == old(sendQueue) + [frame] && sent == old(sent)
    {
      var seqN := sequenceN;
      sequenceN := sequenceN + 1;
      issued := issued + [seqN];
      call := AwaitResponse(ClientSubscribeFrame(seqN, uri), seqN, SubscribeCall);
    }

    /** `unsubscribe(subId)`: as `subscribe`, awaiting the reply to `[2, <seqN>, <subId>]`. */
    method Unsubscribe(subId: Value) returns (call: nat)
      requires Valid()
      modifies this`sequenceN, this`issued, this`mapper, this`calls, this`sent, this`sendQueue
      ensures Valid()
      ensures sequenceN == old(sequenceN) + 1 && issued == old(issued) + [old(sequenceN)]
      ensures forall n :: n in old(issued) ==> n < old(sequenceN)
      ensures call == old(|calls|) && calls == old(calls) + [Call(UnsubscribeCall, Waiting)]
      ensures mapper == old(mapper)[old(sequenceN) := call]
      ensures var frame := ClientUnsubscribeFrame(old(sequenceN), subId);
              if ws == Some(Open) then sent == old(sent) + [frame] && sendQueue == old(sendQueue)
              else sendQueue == old(sendQueue) + [frame] && sent == old(sent)
    {
      var seqN := sequenceN;
      sequenceN := sequenceN + 1;
      issued := issued + [seqN];
      call := AwaitResponse(ClientUnsubscribeFrame(seqN, subId), seqN, UnsubscribeCall);
    }

    /** A request's 30-second timer fires: its promise is rejected unless it has settled already. */
    method OnRequestTimeout(call: nat)
      requires Valid()
      modifies this`calls
      ensures Valid()
      ensures calls == SettleCall(old(calls), call, Rejected("Timeout"))
    {
      calls := SettleCall(calls, call, Rejected("Timeout"));
    }

    /**
     * `_handleMessage`: a type 1 or 2 reply resolves the resolver under its sequence number with
     * the renamed fields, whatever its status code, and throws when there is none; a resolved
     * `subscribe` call then stores its Subscription under the reply's subscription id. A type 3
     * frame is emitted as an event. Nothing else changes any table.
     */
    method HandleMessage(frame: seq<Value>) returns (r: Outcome)
      requires Valid()
      modifies this`calls, this`subscribitions, this`emitted
      ensures Valid()
      ensures var tag, key := Field(frame, 0), Field(frame, 1);
              (tag == Num(SUBSCRIBE_TAG) || tag == Num(UNSUBSCRIBE_TAG)) && !(key.Num? && key.n in mapper) ==>
                r == Fail(NO_RESOLVER) && unchanged(this)
      ensures var tag, key := Field(frame, 0), Field(frame, 1);
              tag == Num(SUBSCRIBE_TAG) && key.Num? && key.n in mapper ==>
                var response := SubAck(tag, key, Field(frame, 2), Field(frame, 3), Field(frame, 4));
                && r == Pass
                && calls == SettleCall(old(calls), mapper[key.n], Fulfilled(response))
                && subscribitions == AfterResolve(old(subscribitions), old(calls), mapper[key.n], response)
                && emitted == old(emitted)
      ensures var tag, key := Field(frame, 0), Field(frame, 1);
              tag == Num(UNSUBSCRIBE_TAG) && key.Num? && key.n in mapper ==>
                var response := UnsubAck(tag, key, Field(frame, 2));
                && r == Pass
                && calls == SettleCall(old(calls), mapper[key.n], Fulfilled(response))
                && subscribitions == AfterResolve(old(subscribitions), old(calls), mapper[key.n], response)
                && emitted == old(emitted)
      ensures Field(frame, 0) == Num(EVENT_TAG) ==>
        && r == Pass
        && emitted == old(emitted) + [ClientEvent(Num(EVENT_TAG), Field(frame, 1), Field(frame, 2))]
        && unchanged(this`calls, this`subscribitions)
      ensures Field(frame, 0) !in {Num(SUBSCRIBE_TAG), Num(UNSUBSCRIBE_TAG), Num(EVENT_TAG)} ==>
        r == Pass && unchanged(this)
    {
      var messageType := Field(frame, 0);
      if messageType == Num(SUBSCRIBE_TAG) || messageType == Num(UNSUBSCRIBE_TAG) {
        var key := Field(frame, 1);
        if !(key.Num? && key.n in mapper) {
          return Fail(NO_RESOLVER);
        }
        var c := mapper[key.n];
        var response := if messageType == Num(SUBSCRIBE_TAG)
                        then SubAck(messageType, key, Field(frame, 2), Field(frame, 3), Field(frame, 4))
                        else UnsubAck(messageType, key, Field(frame, 2));
        // the awaiting subscribe call continues only if this resolve settles its promise
        subscribitions := AfterResolve(subscribitions, calls, c, response);
        calls := SettleCall(calls, c, Fulfilled(response));
      } else if messageType == Num(EVENT_TAG) {
        emitted := emitted + [ClientEvent(messageType, Field(frame, 1), Field(frame, 2))];
      }
      r := Pass;
    }
  }
}
