/**
 * The real-time-activity session of src/index.ts (class `XboxRTA`): a sequence counter, an
 * outbound queue held while the socket is not open, the module-level table of pending
 * requests, the table of acknowledged subscriptions, and the dispatcher for inbound frames.
 *
 * The socket is its ready state plus whether the session's handlers are still attached to it;
 * frames handed to it are appended to `sent`, notifications the session emits to `emitted`.
 */
module Session {
  import opened Base
  import opened Json
  import opened JsMap
  import Constants
  import opened Frames

  const ADDRESS := "wss://rta.xboxlive.com/connect"
  const SUBSCRIBE := Constants.MessageType.Subscribe.Tag()
  const UNSUBSCRIBE := Constants.MessageType.Unsubscribe.Tag()
  const EVENT := Constants.MessageType.Event.Tag()
  const SUCCESS := Constants.StatusCode.Success.Code()
  /** The close code on which the session reconnects (abnormal closure). */
  const ABNORMAL_CLOSURE := 1006

  /** The record the session builds from a successful Subscribe reply. */
  datatype SubscribeResponse = SubscribeResponse(
    msgType: Value, sequenceId: Value, status: Value, subscriptionId: Value, data: Value,
    uri: Option<string>)

  datatype UnsubscribeResponse = UnsubscribeResponse(msgType: Value, sequenceId: Value, status: Value)

  datatype EventResponse = EventResponse(msgType: Value, subscriptionId: Value, data: Value)

  /** What the session emits: the `subscribe`, `unsubscribe`, `event` and `error` notifications. */
  datatype Notification =
    | SubscribeNote(sub: SubscribeResponse)
    | UnsubscribeNote(unsub: UnsubscribeResponse)
    | EventNote(event: EventResponse)
    | ErrorNote(message: string)

  datatype Response = SubscribeAck(sub: SubscribeResponse) | UnsubscribeAck(unsub: UnsubscribeResponse)

  /** The state of a promise returned by `send`. */
  datatype Settlement = Waiting | Fulfilled(response: Response) | Rejected(reason: string)

  /** A `promiseMap` entry: the promise it settles and the raw payload of the request. */
  datatype Pending = Pending(promise: nat, data: string)

  /** `ws`: no socket yet, or a socket with its ready state and whether its message and close handlers are attached. */
  datatype Socket = NoSocket | Socket(state: ReadyState, listening: bool)

  /** A timer handle: `null`, or a scheduled timer. */
  datatype Timer = NoTimer | Armed

  /** What the socket delivers: a text frame (already parsed into its JSON array) or binary data. */
  datatype Message = TextMessage(frame: seq<Value>) | BinaryMessage

  predicate IsOpen(ws: Socket) {
    ws.Socket? && ws.state == Open
  }

  /** Settling a promise: only the first resolve or reject takes effect. */
  function Settle(ss: seq<Settlement>, p: nat, s: Settlement): (r: seq<Settlement>)
    ensures |r| == |ss|
    ensures forall q :: 0 <= q < |ss| && q != p ==> r[q] == ss[q]
    ensures p < |ss| && !ss[p].Waiting? ==> r[p] == ss[p]
    ensures p < |ss| && ss[p].Waiting? ==> r[p] == s
  {
    if p < |ss| && ss[p].Waiting? then ss[p := s] else ss
  }

  /** A promise settles once: settling it again changes nothing. */
  lemma SettleOnce(ss: seq<Settlement>, p: nat, s: Settlement, s': Settlement)
    requires !s.Waiting?
    ensures Settle(Settle(ss, p, s), p, s') == Settle(ss, p, s)
  {
  }

  /** `promise?.resolve(..)` / `promise?.reject(..)` for the entry under `key`, if there is one. */
  function SettleFor(entries: map<Value, Pending>, ss: seq<Settlement>, key: Value, s: Settlement): seq<Settlement>
  {
    if key in entries then Settle(ss, entries[key].promise, s) else ss
  }

  /** The name `convertRTAStatus` gives a status field (its switch matches numbers only). */
  function StatusName(status: Value): string
  {
    if status.Num? then Constants.ConvertRTAStatus(status.n) else "Unknown"
  }

  /** The message of the error a failed reply produces. */
  function FailureMessage(action: string, status: Value): string
  {
    action + " failed with status code " + Text(status) + " " + StatusName(status)
  }

  /** `sub.uri` as a condition: null and the empty string are false. */
  predicate Truthy(uri: Option<string>) {
    uri.Some? && uri.value != ""
  }

  /** A stored subscription: keyed by its own sequence id, of type Subscribe, with status Success. */
  predicate Acknowledged(e: (Value, SubscribeResponse)) {
    e.1.sequenceId == e.0 && e.1.msgType == Num(SUBSCRIBE) && e.1.status == Num(SUCCESS)
  }

  /**
   * A reply counts as a success only when its third element is the number 0: a reply shorter
   * than three elements (`[1,0]`) reads its status as undefined, which is not 0 and is named
   * "Unknown", so it takes the failure path.
   */
  lemma SuccessNeedsStatus(f: seq<Value>)
    ensures Field(f, 2) == Num(SUCCESS) <==> |f| >= 3 && f[2] == Num(0)
    ensures |f| < 3 ==> Field(f, 2) == Undefined && StatusName(Field(f, 2)) == "Unknown"
  {
  }

  /** The frame `onOpen` sends again for a subscription with a uri. */
  function ResubscribeFrame(sub: SubscribeResponse): string
    requires Truthy(sub.uri)
  {
    EncodeRequest(sub.msgType, sub.sequenceId, sub.uri.value)
  }

  /** The frames `onOpen` sends, in the table's order, one per subscription whose uri is truthy. */
  function ResubscribeFrames(subs: Entries<Value, SubscribeResponse>): seq<string>
  {
    if subs == [] then []
    else
      var sub := subs[|subs| - 1].1;
      ResubscribeFrames(subs[..|subs| - 1]) + (if Truthy(sub.uri) then [ResubscribeFrame(sub)] else [])
  }

  /**
   * `promiseMap` after `onOpen`'s resends, when promise ids from `next` on are free: each resend
   * replaces the entry under the subscription's old sequence id.
   */
  function ResubscribeEntries(entries: map<Value, Pending>, subs: Entries<Value, SubscribeResponse>, next: nat)
    : map<Value, Pending>
  {
    if subs == [] then entries
    else
      var init, sub := subs[..|subs| - 1], subs[|subs| - 1].1;
      var prev := ResubscribeEntries(entries, init, next);
      if Truthy(sub.uri) then prev[sub.sequenceId := Pending(next + |ResubscribeFrames(init)|, sub.uri.value)]
      else prev
  }

  /** `n` promises that have not settled yet. */
  function Waitings(n: nat): (r: seq<Settlement>)
    ensures |r| == n && forall i :: 0 <= i < n ==> r[i] == Waiting
  {
    seq(n, _ => Waiting)
  }

  /** Every frame `onOpen` resends comes from one subscription with a truthy uri, and every such subscription yields one. */
  lemma {:induction false} ResubscribeFramesComplete(subs: Entries<Value, SubscribeResponse>)
    ensures forall f :: f in ResubscribeFrames(subs) <==>
      exists j :: 0 <= j < |subs| && Truthy(subs[j].1.uri) && f == ResubscribeFrame(subs[j].1)
  {
    if subs != [] {
      var init, last := subs[..|subs| - 1], subs[|subs| - 1].1;
      ResubscribeFramesComplete(init);
      var fs := ResubscribeFrames(init);
      assert ResubscribeFrames(subs) == fs + if Truthy(last.uri) then [ResubscribeFrame(last)] else [];
      forall f | f in ResubscribeFrames(subs)
        ensures exists j :: 0 <= j < |subs| && Truthy(subs[j].1.uri) && f == ResubscribeFrame(subs[j].1)
      {
        if f in fs {
          var j :| 0 <= j < |init| && Truthy(init[j].1.uri) && f == ResubscribeFrame(init[j].1);
          assert subs[j] == init[j];
        } else {
          assert f == ResubscribeFrame(last);
        }
      }
      forall f | exists j :: 0 <= j < |subs| && Truthy(subs[j].1.uri) && f == ResubscribeFrame(subs[j].1)
        ensures f in ResubscribeFrames(subs)
      {
        var j :| 0 <= j < |subs| && Truthy(subs[j].1.uri) && f == ResubscribeFrame(subs[j].1);
        if j < |init| {
          assert init[j] == subs[j];
        }
      }
    }
  }

  /** Resending keeps the table's order: the frames of a concatenation are the concatenated frames. */
  lemma {:induction false} ResubscribeFramesAppend(a: Entries<Value, SubscribeResponse>, b: Entries<Value, SubscribeResponse>)
    ensures ResubscribeFrames(a + b) == ResubscribeFrames(a) + ResubscribeFrames(b)
  {
    if b != [] {
      var b' := b[..|b| - 1];
      assert (a + b)[..|a + b| - 1] == a + b';
      assert (a + b)[|a + b| - 1] == b[|b| - 1];
      ResubscribeFramesAppend(a, b');
    } else {
      assert a + b == a;
    }
  }

  /**
   * For stored subscriptions the resent frames are Subscribe frames `[1,<id>,"<uri>"]` under the
   * subscription's old id: each decodes to the key and uri of an entry of the table.
   */
  lemma ResubscribeFramesDecode(subs: Entries<Value, SubscribeResponse>)
    requires forall e :: e in subs ==> Acknowledged(e) && e.0.Num? && e.0.n >= 0
    ensures forall f :: f in ResubscribeFrames(subs) ==>
      DecodeSubscribe(f).Some? &&
      exists j :: 0 <= j < |subs| && subs[j].0 == Num(DecodeSubscribe(f).value.0)
                && subs[j].1.uri == Some(DecodeSubscribe(f).value.1)
  {
    ResubscribeFramesComplete(subs);
    forall f | f in ResubscribeFrames(subs)
      ensures DecodeSubscribe(f).Some? &&
        exists j :: 0 <= j < |subs| && subs[j].0 == Num(DecodeSubscribe(f).value.0)
                  && subs[j].1.uri == Some(DecodeSubscribe(f).value.1)
    {
      var j :| 0 <= j < |subs| && Truthy(subs[j].1.uri) && f == ResubscribeFrame(subs[j].1);
      assert subs[j] in subs;
      SubscribeFrameRoundTrip(subs[j].0.n, subs[j].1.uri.value);
    }
  }

  /** Every resent frame decodes to the key of some entry of the table. */
  lemma {:induction false} ResubscribeFrameKeys(subs: Entries<Value, SubscribeResponse>)
    requires forall e :: e in subs ==> Acknowledged(e) && e.0.Num? && e.0.n >= 0
    ensures forall f :: f in ResubscribeFrames(subs) ==>
      DecodeSubscribe(f).Some? && Get(subs, Num(DecodeSubscribe(f).value.0)).Some?
  {
    if subs != [] {
      var init, last := subs[..|subs| - 1], subs[|subs| - 1];
      assert init + [last] == subs;
      assert forall e :: e in init ==> e in subs;
      assert last in subs;
      ResubscribeFrameKeys(init);
      forall f | f in ResubscribeFrames(subs)
        ensures DecodeSubscribe(f).Some? && Get(subs, Num(DecodeSubscribe(f).value.0)).Some?
      {
        if f !in ResubscribeFrames(init) {
          SubscribeFrameRoundTrip(last.0.n, last.1.uri.value);
        }
        GetAppend(init, last.0, last.1, Num(DecodeSubscribe(f).value.0));
      }
    }
  }

  /** Under distinct numeric keys, no frame is resent twice: each subscription is resubmitted exactly once. */
  lemma {:induction false} ResubscribeFramesDistinct(subs: Entries<Value, SubscribeResponse>)
    requires DistinctKeys(subs)
    requires forall e :: e in subs ==> Acknowledged(e) && e.0.Num? && e.0.n >= 0
    ensures forall i, j :: 0 <= i < j < |ResubscribeFrames(subs)| ==>
      ResubscribeFrames(subs)[i] != ResubscribeFrames(subs)[j]
  {
    if subs != [] {
      var init, last := subs[..|subs| - 1], subs[|subs| - 1];
      assert init + [last] == subs;
      DistinctKeysInit(subs);
      assert forall e :: e in init ==> e in subs;
      ResubscribeFramesDistinct(init);
      var fs := ResubscribeFrames(init);
      if Truthy(last.1.uri) {
        var g := ResubscribeFrame(last.1);
        assert ResubscribeFrames(subs) == fs + [g];
        assert last in subs;
        SubscribeFrameRoundTrip(last.0.n, last.1.uri.value);
        ResubscribeFrameKeys(init);
        LastKeyFresh(subs);
        forall i | 0 <= i < |fs| ensures fs[i] != g {
          assert fs[i] in fs;
          assert DecodeSubscribe(fs[i]).value.0 != DecodeSubscribe(g).value.0;
        }
      } else {
        assert ResubscribeFrames(subs) == fs;
      }
    }
  }

  lemma DistinctKeysInit<K(!new), V(!new)>(m: Entries<K, V>)
    requires DistinctKeys(m) && m != []
    ensures DistinctKeys(m[..|m| - 1])
  {
    assert m[..|m| - 1] + [m[|m| - 1]] == m;
    var init := m[..|m| - 1];
    assert Delete(m, m[|m| - 1].0) == init by {
      LastKeyFresh(m);
      DeleteLast(init, m[|m| - 1].0, m[|m| - 1].1);
    }
  }

  /** In a table with distinct keys the last key occurs nowhere before it. */
  lemma {:induction false} LastKeyFresh<K(!new), V(!new)>(m: Entries<K, V>)
    requires DistinctKeys(m) && m != []
    ensures Get(m[..|m| - 1], m[|m| - 1].0).None?
  {
    if |m| > 1 {
      assert m[1..][..|m[1..]| - 1] == m[..|m| - 1][1..];
      LastKeyFresh(m[1..]);
      assert m[|m| - 1] in m[1..];
      GetFindsEntry(m[1..], m[0].0);
    }
  }

  /**
   * After the resends, a subscription with a truthy uri has a pending entry under its key holding
   * that uri; every other entry is as it was.
   */
  lemma {:induction false} ResubscribeEntriesSpec(entries: map<Value, Pending>, subs: Entries<Value, SubscribeResponse>, next: nat)
    requires DistinctKeys(subs)
    requires forall e :: e in subs ==> Acknowledged(e)
    ensures forall k :: Get(subs, k).Some? && Truthy(Get(subs, k).value.uri) ==>
      k in ResubscribeEntries(entries, subs, next)
      && ResubscribeEntries(entries, subs, next)[k].data == Get(subs, k).value.uri.value
    ensures forall k :: k in entries && !(Get(subs, k).Some? && Truthy(Get(subs, k).value.uri)) ==>
      k in ResubscribeEntries(entries, subs, next) && ResubscribeEntries(entries, subs, next)[k] == entries[k]
    ensures forall k :: k in ResubscribeEntries(entries, subs, next) ==> k in entries || Get(subs, k).Some?
  {
    if subs != [] {
      var init, last := subs[..|subs| - 1], subs[|subs| - 1];
      assert init + [last] == subs;
      assert forall e :: e in init ==> e in subs;
      assert last in subs;
      DistinctKeysInit(subs);
      LastKeyFresh(subs);
      ResubscribeEntriesSpec(entries, init, next);
      forall k ensures Get(subs, k) == if Get(init, k).Some? then Get(init, k) else if k == last.0 then Some(last.1) else None {
        GetAppend(init, last.0, last.1, k);
      }
    }
  }

  /** The table of pending requests, module-level in the source and so shared by every session. */
  class PromiseMap {
    var entries: map<Value, Pending>
    /** The state of each promise `send` has created, indexed by promise id. */
    var settlements: seq<Settlement>

    ghost predicate Valid()
      reads this
    {
      forall k :: k in entries ==> entries[k].promise < |settlements|
    }

    constructor ()
      ensures Valid() && entries == map[] && settlements == []
    {
      entries := map[];
      settlements := [];
    }
  }

  class XboxRTA {
    const promiseMap: PromiseMap
    var subscriptions: Entries<Value, SubscribeResponse>
    var ws: Socket
    var queue: seq<string>
    var heartbeatTimeout: Timer
    var reconnectTimeout: Timer
    var sequenceId: nat
    /** Frames handed to the socket, oldest first. */
    var sent: seq<string>
    /** Notifications emitted, oldest first. */
    var emitted: seq<Notification>
    /** The sequence ids issued so far, in order. */
    ghost var issued: seq<nat>

    ghost predicate Valid()
      reads this, promiseMap
    {
      && promiseMap.Valid()
      && DistinctKeys(subscriptions)
      && (forall e :: e in subscriptions ==> Acknowledged(e))
      && |issued| == sequenceId
      && (forall i :: 0 <= i < |issued| ==> issued[i] == i)
    }

    /** A new session over the given pending-request table. */
    constructor (promiseMap: PromiseMap)
      requires promiseMap.Valid()
      ensures Valid() && this.promiseMap == promiseMap
      ensures subscriptions == [] && ws == NoSocket && queue == [] && sequenceId == 0
      ensures heartbeatTimeout == NoTimer && reconnectTimeout == NoTimer && sent == [] && emitted == []
    {
      this.promiseMap := promiseMap;
      subscriptions := [];
      ws := NoSocket;
      queue := [];
      heartbeatTimeout := NoTimer;
      reconnectTimeout := NoTimer;
      sequenceId := 0;
      sent := [];
      emitted := [];
      issued := [];
    }

    /** `connect`: refused only while the socket is open; otherwise a new socket starts connecting. */
    method Connect() returns (r: Outcome)
      requires Valid()
      modifies this
      ensures Valid()
      ensures IsOpen(old(ws)) ==> r == Fail("Already connected to " + ADDRESS) && ws == old(ws)
      ensures !IsOpen(old(ws)) ==> r == Pass && ws == Socket(Connecting, true)
      ensures unchanged(this`subscriptions, this`queue, this`sequenceId, this`sent, this`emitted)
      ensures unchanged(this`heartbeatTimeout, this`reconnectTimeout, this`issued, promiseMap)
    {
      if IsOpen(ws) {
        return Fail("Already connected to " + ADDRESS);
      }
      Init();
      r := Pass;
    }

    /** `init`: credentials are fetched (not modelled) and a fresh socket is created with the handlers attached. */
    method Init()
      modifies this`ws
      ensures ws == Socket(Connecting, true)
    {
      ws := Socket(Connecting, true);
    }

    /**
     * `destroy`: both timer handles become null; the socket's message and close handlers are
     * detached and an open socket is closed; with `resume` a new socket is created.
     */
    method Destroy(resume: bool)
      requires Valid()
      modifies this
      ensures Valid()
      ensures heartbeatTimeout == NoTimer && reconnectTimeout == NoTimer
      ensures resume ==> ws == Socket(Connecting, true)
      ensures !resume ==> ws == match old(ws)
                                case NoSocket => NoSocket
                                case Socket(s, _) => Socket(if s == Open then Closed else s, false)
      ensures unchanged(this`subscriptions, this`queue, this`sequenceId, this`sent, this`emitted)
      ensures unchanged(this`issued, promiseMap)
    {
      heartbeatTimeout := NoTimer;
      reconnectTimeout := NoTimer;
      if ws.Socket? {
        var shouldClose := ws.state == Open;
        ws := ws.(listening := false);
        if shouldClose {
          // ws.close(1000) and wait for the close to complete
          ws := ws.(state := Closed);
        }
      }
      if resume {
        Init();
      }
    }

    /**
     * `send`: encodes the frame, transmits it when the socket is open and otherwise appends it to
     * the queue, and stores a pending entry under `key` holding the raw payload and a new promise.
     */
    method Send(msgType: Value, key: Value, payload: string) returns (promise: nat)
      requires Valid()
      modifies this, promiseMap
      ensures Valid()
      ensures IsOpen(old(ws)) ==> sent == old(sent) + [EncodeRequest(msgType, key, payload)] && queue == old(queue)
      ensures !IsOpen(old(ws)) ==> queue == old(queue) + [EncodeRequest(msgType, key, payload)] && sent == old(sent)
      ensures promise == old(|promiseMap.settlements|)
      ensures promiseMap.settlements == old(promiseMap.settlements) + [Waiting]
      ensures promiseMap.entries == old(promiseMap.entries)[key := Pending(promise, payload)]
      ensures unchanged(this`subscriptions, this`ws, this`sequenceId, this`emitted)
      ensures unchanged(this`heartbeatTimeout, this`reconnectTimeout, this`issued)
    {
      var data := EncodeRequest(msgType, key, payload);
      if IsOpen(ws) {
        sent := sent + [data];
      } else {
        queue := queue + [data];
      }
      promise := |promiseMap.settlements|;
      promiseMap.settlements := promiseMap.settlements + [Waiting];
      promiseMap.entries := promiseMap.entries[key := Pending(promise, payload)];
    }

    /** `subscribe(uri)`: takes the current sequence id, increments the counter, and sends a Subscribe frame. */
    method Subscribe(uri: string) returns (promise: nat)
      requires Valid()
      modifies this, promiseMap
      ensures Valid()
      ensures sequenceId == old(sequenceId) + 1 && issued == old(issued) + [old(sequenceId)]
      ensures forall id :: id in old(issued) ==> id < old(sequenceId)
      ensures var frame := EncodeRequest(Num(SUBSCRIBE), Num(old(sequenceId)), uri);
              if IsOpen(old(ws)) then sent == old(sent) + [frame] && queue == old(queue)
              else queue == old(queue) + [frame] && sent == old(sent)
      ensures promise == old(|promiseMap.settlements|)
      ensures promiseMap.settlements == old(promiseMap.settlements) + [Waiting]
      ensures promiseMap.entries == old(promiseMap.entries)[Num(old(sequenceId)) := Pending(promise, uri)]
      ensures unchanged(this`subscriptions, this`ws, this`emitted, this`heartbeatTimeout, this`reconnectTimeout)
    {
      var id := sequenceId;
      sequenceId := sequenceId + 1;
      issued := issued + [id];
      promise := Send(Num(SUBSCRIBE), Num(id), uri);
    }

    /** `unsubscribe(subscriptionId)`: as `subscribe`, with an Unsubscribe frame whose payload is not quoted. */
    method Unsubscribe(subscriptionId: string) returns (promise: nat)
      requires Valid()
      modifies this, promiseMap
      ensures Valid()
      ensures sequenceId == old(sequenceId) + 1 && issued == old(issued) + [old(sequenceId)]
      ensures forall id :: id in old(issued) ==> id < old(sequenceId)
      ensures var frame := EncodeRequest(Num(UNSUBSCRIBE), Num(old(sequenceId)), subscriptionId);
              if IsOpen(old(ws)) then sent == old(sent) + [frame] && queue == old(queue)
              else queue == old(queue) + [frame] && sent == old(sent)
      ensures promise == old(|promiseMap.settlements|)
      ensures promiseMap.settlements == old(promiseMap.settlements) + [Waiting]
      ensures promiseMap.entries == old(promiseMap.entries)[Num(old(sequenceId)) := Pending(promise, subscriptionId)]
      ensures unchanged(this`subscriptions, this`ws, this`emitted, this`heartbeatTimeout, this`reconnectTimeout)
    {
      var id := sequenceId;
      sequenceId := sequenceId + 1;
      issued := issued + [id];
      promise := Send(Num(UNSUBSCRIBE), Num(id), subscriptionId);
    }

    /**
     * `onOpen`: arms the refresh timer, transmits every queued frame in order and empties the
     * queue, then resends a Subscribe frame for each subscription with a truthy uri, under the
     * subscription's stored type and old sequence id.
     */
    method OnOpen()
      requires Valid() && ws.Socket?
      modifies this, promiseMap
      ensures Valid()
      ensures ws == Socket(Open, old(ws).listening) && reconnectTimeout == Armed
      ensures queue == []
      ensures sent == old(sent) + old(queue) + ResubscribeFrames(old(subscriptions))
      ensures promiseMap.entries
           == ResubscribeEntries(old(promiseMap.entries), old(subscriptions), old(|promiseMap.settlements|))
      ensures promiseMap.settlements
           == old(promiseMap.settlements) + Waitings(|ResubscribeFrames(old(subscriptions))|)
      ensures unchanged(this`subscriptions, this`sequenceId, this`emitted, this`heartbeatTimeout, this`issued)
    {
      ws := ws.(state := Open);
      reconnectTimeout := Armed;
      FlushQueue();
      Resubscribe();
    }

    /** The flush in `onOpen`: every queued frame is sent once, in order, and the queue is emptied. */
    method FlushQueue()
      modifies this`sent, this`queue
      ensures sent == old(sent) + old(queue) && queue == []
    {
      var q := queue;
      for i := 0 to |q|
        invariant sent == old(sent) + q[..i] && queue == q
      {
        sent := sent + [q[i]];
      }
      assert q[..|q|] == q;
      queue := [];
    }

    /**
     * The resubscription in `onOpen`: over an open socket, one Subscribe `send` per subscription
     * with a truthy uri, in the table's order, under the subscription's stored type and old id.
     */
    method Resubscribe()
      requires Valid() && IsOpen(ws)
      modifies this, promiseMap
      ensures Valid()
      ensures sent == old(sent) + ResubscribeFrames(subscriptions)
      ensures promiseMap.entries
           == ResubscribeEntries(old(promiseMap.entries), subscriptions, old(|promiseMap.settlements|))
      ensures promiseMap.settlements
           == old(promiseMap.settlements) + Waitings(|ResubscribeFrames(subscriptions)|)
      ensures unchanged(this`subscriptions, this`ws, this`queue, this`sequenceId, this`emitted)
      ensures unchanged(this`heartbeatTimeout, this`reconnectTimeout, this`issued)
    {
      var subs := subscriptions;
      for i := 0 to |subs|
        invariant Valid() && subscriptions == subs && ws == old(ws) && queue == old(queue)
        invariant sequenceId == old(sequenceId) && emitted == old(emitted) && issued == old(issued)
        invariant heartbeatTimeout == old(heartbeatTimeout) && reconnectTimeout == old(reconnectTimeout)
        invariant sent == old(sent) + ResubscribeFrames(subs[..i])
        invariant promiseMap.entries == ResubscribeEntries(old(promiseMap.entries), subs[..i], old(|promiseMap.settlements|))
        invariant promiseMap.settlements == old(promiseMap.settlements) + Waitings(|ResubscribeFrames(subs[..i])|)
      {
        var sub := subs[i].1;
        assert subs[..i + 1][..i] == subs[..i];
        if sub.uri.Some? && sub.uri.value != "" {
          var p := Send(sub.msgType, sub.sequenceId, sub.uri.value);
        }
        assert Waitings(|ResubscribeFrames(subs[..i + 1])|)
            == Waitings(|ResubscribeFrames(subs[..i])|) + (if Truthy(sub.uri) then [Waiting] else []);
      }
      assert subs[..|subs|] == subs;
    }

    /** `onClose`: the socket is closed; on code 1006 the refresh timer is cleared and the session reconnects. */
    method OnClose(code: int)
      requires Valid()
      modifies this
      ensures Valid()
      ensures !(old(ws).Socket? && old(ws).listening) ==> ws == old(ws)
      ensures old(ws).Socket? && old(ws).listening && code == ABNORMAL_CLOSURE ==>
        ws == Socket(Connecting, true) && heartbeatTimeout == NoTimer && reconnectTimeout == NoTimer
      ensures old(ws).Socket? && old(ws).listening && code != ABNORMAL_CLOSURE ==>
        ws == Socket(Closed, true) && unchanged(this`heartbeatTimeout, this`reconnectTimeout)
      ensures !(old(ws).Socket? && old(ws).listening) ==> unchanged(this`heartbeatTimeout, this`reconnectTimeout)
      ensures unchanged(this`subscriptions, this`queue, this`sequenceId, this`sent, this`emitted)
      ensures unchanged(this`issued, promiseMap)
    {
      if ws.Socket? && ws.listening {
        ws := ws.(state := Closed);
        if code == ABNORMAL_CLOSURE {
          Destroy(true);
        }
      }
    }

    /** `heartbeat` (a pong arrived): the heartbeat timer is cleared and armed again. */
    method OnPong()
      modifies this`heartbeatTimeout
      ensures heartbeatTimeout == Armed
    {
      heartbeatTimeout := Armed;
    }

    /** The heartbeat timer fires without a pong in between: the session reconnects. */
    method OnHeartbeatTimeout()
      requires Valid() && heartbeatTimeout == Armed
      modifies this
      ensures Valid()
      ensures ws == Socket(Connecting, true) && heartbeatTimeout == NoTimer && reconnectTimeout == NoTimer
      ensures unchanged(this`subscriptions, this`queue, this`sequenceId, this`sent, this`emitted)
      ensures unchanged(this`issued, promiseMap)
    {
      Destroy(true);
    }

    /** The 90-minute refresh timer armed by `onOpen` fires: the session reconnects whatever the socket's health. */
    method OnRefreshTimeout()
      requires Valid() && reconnectTimeout == Armed
      modifies this
      ensures Valid()
      ensures ws == Socket(Connecting, true) && heartbeatTimeout == NoTimer && reconnectTimeout == NoTimer
      ensures unchanged(this`subscriptions, this`queue, this`sequenceId, this`sent, this`emitted)
      ensures unchanged(this`issued, promiseMap)
    {
      Destroy(true);
    }

    /** A request's 30-second timer fires: its promise is rejected unless it has settled already. */
    method OnRequestTimeout(promise: nat)
      requires Valid()
      modifies promiseMap`settlements
      ensures Valid()
      ensures promiseMap.settlements == Settle(old(promiseMap.settlements), promise, Rejected("Timeout"))
    {
      promiseMap.settlements := Settle(promiseMap.settlements, promise, Rejected("Timeout"));
    }

    /**
     * `onMessage`: dispatches on the frame's leading tag.
     * Subscribe reply `[1, seq, status, subscriptionId, data]`: on status 0 the record, with the
     * uri taken from the pending entry (null when there is none), resolves the pending promise,
     * is emitted and is stored under `seq`; otherwise the promise is rejected and an error emitted.
     * Unsubscribe reply `[2, seq, status]`: on status 0 resolves, emits and removes `seq` from the
     * subscriptions; otherwise rejects and emits an error.
     * Event `[3, subscriptionId, data]`: emitted whatever the subscriptions hold.
     * Anything else, and binary data, changes nothing. Pending entries are never removed.
     */
    method OnMessage(msg: Message)
      requires Valid()
      modifies this, promiseMap
      ensures Valid()
      ensures unchanged(this`ws, this`queue, this`sequenceId, this`sent, this`heartbeatTimeout)
      ensures unchanged(this`reconnectTimeout, this`issued, promiseMap`entries)
      ensures !(old(ws).Socket? && old(ws).listening) || msg.BinaryMessage?
              || Field(msg.frame, 0) !in {Num(SUBSCRIBE), Num(UNSUBSCRIBE), Num(EVENT)} ==>
        unchanged(this, promiseMap)
      ensures old(ws).Socket? && old(ws).listening && msg.TextMessage? && Field(msg.frame, 0) == Num(SUBSCRIBE) ==>
        var f, entries := msg.frame, old(promiseMap.entries);
        var key, status := Field(f, 1), Field(f, 2);
        if status != Num(SUCCESS) then
          var error := FailureMessage("Subscribe", status);
          && subscriptions == old(subscriptions)
          && promiseMap.settlements == SettleFor(entries, old(promiseMap.settlements), key, Rejected(error))
          && emitted == old(emitted) + [ErrorNote(error)]
        else
          var sub := SubscribeResponse(Num(SUBSCRIBE), key, status, Field(f, 3), Field(f, 4),
                                       if key in entries then Some(entries[key].data) else None);
          && subscriptions == Set(old(subscriptions), key, sub)
          && promiseMap.settlements == SettleFor(entries, old(promiseMap.settlements), key, Fulfilled(SubscribeAck(sub)))
          && emitted == old(emitted) + [SubscribeNote(sub)]
      ensures old(ws).Socket? && old(ws).listening && msg.TextMessage? && Field(msg.frame, 0) == Num(UNSUBSCRIBE) ==>
        var f, entries := msg.frame, old(promiseMap.entries);
        var key, status := Field(f, 1), Field(f, 2);
        if status != Num(SUCCESS) then
          var error := FailureMessage("Unsubscribe", status);
          && subscriptions == old(subscriptions)
          && promiseMap.settlements == SettleFor(entries, old(promiseMap.settlements), key, Rejected(error))
          && emitted == old(emitted) + [ErrorNote(error)]
        else
          var unsub := UnsubscribeResponse(Num(UNSUBSCRIBE), key, status);
          && subscriptions == Delete(old(subscriptions), key)
          && promiseMap.settlements
             == SettleFor(entries, old(promiseMap.settlements), key, Fulfilled(UnsubscribeAck(unsub)))
          && emitted == old(emitted) + [UnsubscribeNote(unsub)]
      ensures old(ws).Socket? && old(ws).listening && msg.TextMessage? && Field(msg.frame, 0) == Num(EVENT) ==>
        && emitted == old(emitted) + [EventNote(EventResponse(Num(EVENT), Field(msg.frame, 1), Field(msg.frame, 2)))]
        && unchanged(this`subscriptions, promiseMap)
    {
      if !(ws.Socket? && ws.listening) {
        return;
      }
      if msg.BinaryMessage? {
        return;
      }
      var f := msg.frame;
      var messageType := Field(f, 0);
      if messageType == Num(SUBSCRIBE) {
        var msgType, key, status, subscriptionId, data := Field(f, 0), Field(f, 1), Field(f, 2), Field(f, 3), Field(f, 4);
        var found := key in promiseMap.entries;
        if status != Num(SUCCESS) {
          var error := FailureMessage("Subscribe", status);
          if found {
            promiseMap.settlements := Settle(promiseMap.settlements, promiseMap.entries[key].promise, Rejected(error));
          }
          emitted := emitted + [ErrorNote(error)];
        } else {
          var sub := SubscribeResponse(msgType, key, status, subscriptionId, data,
                                       if found then Some(promiseMap.entries[key].data) else None);
          if found {
            promiseMap.settlements := Settle(promiseMap.settlements, promiseMap.entries[key].promise, Fulfilled(SubscribeAck(sub)));
          }
          emitted := emitted + [SubscribeNote(sub)];
          subscriptions := Set(subscriptions, key, sub);
        }
      } else if messageType == Num(UNSUBSCRIBE) {
        var msgType, key, status := Field(f, 0), Field(f, 1), Field(f, 2);
        var found := key in promiseMap.entries;
        if status != Num(SUCCESS) {
          var error := FailureMessage("Unsubscribe", status);
          if found {
            promiseMap.settlements := Settle(promiseMap.settlements, promiseMap.entries[key].promise, Rejected(error));
          }
          emitted := emitted + [ErrorNote(error)];
        } else {
          var unsub := UnsubscribeResponse(msgType, key, status);
          if found {
            promiseMap.settlements := Settle(promiseMap.settlements, promiseMap.entries[key].promise, Fulfilled(UnsubscribeAck(unsub)));
          }
          emitted := emitted + [UnsubscribeNote(unsub)];
          subscriptions := Delete(subscriptions, key);
        }
      } else if messageType == Num(EVENT) {
        emitted := emitted + [EventNote(EventResponse(messageType, Field(f, 1), Field(f, 2)))];
      }
      // Resync frames and unknown tags are only logged.
    }
  }
}
