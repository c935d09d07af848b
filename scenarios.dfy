/**
 * Worked runs of the session: what a caller can conclude from the contracts alone about a
 * subscribe that succeeds, one that is refused, a reply without a status, an unsubscribe that
 * leaves its target stored, and a reconnect after an abnormal closure.
 */
module Scenarios {
  import opened Base
  import opened Json
  import opened Frames
  import opened Session

  const URI := "https://sessiondirectory.xboxlive.com/connections/"

  /** Id 0 is assigned; the reply `[1,0,0,"ABC123",{"ConnectionId":"X"}]` resolves with the uri and is stored under 0. */
  method SubscribeSucceeds()
  {
    var table := new PromiseMap();
    var rta := new XboxRTA(table);
    var r := rta.Connect();
    rta.OnOpen();
    var p := rta.Subscribe(URI);
    assert rta.sent == [EncodeRequest(Num(1), Num(0), URI)];
    var data := Obj([("ConnectionId", Str("X"))]);
    rta.OnMessage(TextMessage([Num(1), Num(0), Num(0), Str("ABC123"), data]));
    var sub := SubscribeResponse(Num(1), Num(0), Num(0), Str("ABC123"), data, Some(URI));
    assert table.settlements[p] == Fulfilled(SubscribeAck(sub));
    assert rta.subscriptions == [(Num(0), sub)];
    assert rta.emitted == [SubscribeNote(sub)];
  }

  /** The reply `[1,0,2]` rejects with SubscriptionLimitReached and stores nothing. */
  method SubscribeRefused()
  {
    var table := new PromiseMap();
    var rta := new XboxRTA(table);
    var p := rta.Subscribe(URI);
    assert rta.queue == [EncodeRequest(Num(1), Num(0), URI)] && rta.sent == [];
    rta.Init();
    rta.OnMessage(TextMessage([Num(1), Num(0), Num(2)]));
    var error := FailureMessage("Subscribe", Num(2));
    assert table.settlements[p] == Rejected(error);
    assert rta.subscriptions == [];
    assert rta.emitted == [ErrorNote(error)];
  }

  /** Status 2 is written as "2" in the error message and named SubscriptionLimitReached. */
  lemma LimitReachedStatus()
    ensures Text(Num(2)) == "2"
    ensures StatusName(Num(2)) == "SubscriptionLimitReached"
  {
    assert Decimal(2) == [DigitChar(2)];
  }

  /** The reply `[1,0]` has no status field, so the subscribe is rejected and nothing is stored. */
  method ReplyWithoutStatus()
  {
    var table := new PromiseMap();
    var rta := new XboxRTA(table);
    var r := rta.Connect();
    rta.OnOpen();
    var p := rta.Subscribe(URI);
    rta.OnMessage(TextMessage([Num(1), Num(0)]));
    SuccessNeedsStatus([Num(1), Num(0)]);
    assert table.settlements[p] == Rejected(FailureMessage("Subscribe", Undefined));
    assert rta.subscriptions == [];
  }

  /**
   * A successful unsubscribe removes the entry under the unsubscribe request's own id (1), not
   * under the id of the subscription it names (0): that subscription stays in the table.
   */
  method UnsubscribeKeepsTarget()
  {
    var table := new PromiseMap();
    var rta := new XboxRTA(table);
    var p := rta.Subscribe(URI);
    var data := Obj([]);
    rta.Init();
    rta.OnMessage(TextMessage([Num(1), Num(0), Num(0), Str("ABC123"), data]));
    var sub := SubscribeResponse(Num(1), Num(0), Num(0), Str("ABC123"), data, Some(URI));
    assert rta.subscriptions == [(Num(0), sub)];
    var q := rta.Unsubscribe("ABC123");
    rta.OnMessage(TextMessage([Num(2), Num(1), Num(0)]));
    assert table.settlements[q] == Fulfilled(UnsubscribeAck(UnsubscribeResponse(Num(2), Num(1), Num(0))));
    assert rta.subscriptions == [(Num(0), sub)];
  }

  /**
   * After an abnormal closure the session reconnects on its own; when the new socket opens it
   * resends the subscription under its old id 0, not a fresh one.
   */
  method ReconnectResubscribes()
  {
    var table := new PromiseMap();
    var rta := new XboxRTA(table);
    var r := rta.Connect();
    rta.OnOpen();
    var p := rta.Subscribe(URI);
    var data := Obj([]);
    rta.OnMessage(TextMessage([Num(1), Num(0), Num(0), Str("ABC123"), data]));
    var sub := SubscribeResponse(Num(1), Num(0), Num(0), Str("ABC123"), data, Some(URI));
    assert rta.subscriptions == [(Num(0), sub)];
    rta.OnClose(ABNORMAL_CLOSURE);
    assert rta.ws == Socket(Connecting, true);
    rta.OnOpen();
    assert [(Num(0), sub)][..0] == [];
    assert ResubscribeFrames([(Num(0), sub)]) == [EncodeRequest(Num(1), Num(0), URI)];
    assert rta.sent == [EncodeRequest(Num(1), Num(0), URI), EncodeRequest(Num(1), Num(0), URI)];
    assert rta.sequenceId == 1;
  }
}
