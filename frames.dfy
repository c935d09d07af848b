/**
 * Outbound request frames. Both clients build each frame with a template literal; this
 * module gives those encodings and, as their partner, a decoder that reads a frame back into
 * its sequence number and payload.
 */
module Frames {
  import opened Base
  import opened Json

  /** Index of the first `c` in `s`, or `|s|` when there is none. */
  function IndexOf(s: string, c: char): (i: nat)
    ensures i <= |s|
    ensures forall j :: 0 <= j < i ==> s[j] != c
    ensures i < |s| ==> s[i] == c
  {
    if s == [] then 0 else if s[0] == c then 0 else 1 + IndexOf(s[1..], c)
  }

  /**
   * Reads `head + <decimal> + mid + payload + tail`: the sequence number runs from the end of
   * `head` to the first comma, and `mid` must begin with that comma.
   */
  function SplitFrame(s: string, head: string, mid: string, tail: string): Option<(nat, string)>
  {
    if |s| < |head| || s[..|head|] != head then None
    else
      var r := s[|head|..];
      var i := IndexOf(r, ',');
      if i == 0 || i == |r| || !AllDigits(r[..i]) then None
      else
        var after := r[i..];
        if |after| < |mid| + |tail| || after[..|mid|] != mid || after[|after| - |tail|..] != tail then None
        else Some((ParseDecimal(r[..i]), after[|mid|..|after| - |tail|]))
  }

  lemma {:induction false} IndexOfAfterDigits(d: string, x: string)
    requires AllDigits(d) && |x| > 0 && x[0] == ','
    ensures IndexOf(d + x, ',') == |d|
  {
    if d != [] {
      assert (d + x)[1..] == d[1..] + x;
      IndexOfAfterDigits(d[1..], x);
    }
  }

  /** Splitting a frame built from `n` and `p` gives back `n` and `p`, whatever `p` contains. */
  lemma SplitFrameRoundTrip(head: string, mid: string, tail: string, n: nat, p: string)
    requires |mid| > 0 && mid[0] == ','
    ensures SplitFrame(head + Decimal(n) + mid + p + tail, head, mid, tail) == Some((n, p))
  {
    var d := Decimal(n);
    var s := head + d + mid + p + tail;
    assert s[..|head|] == head;
    var r := s[|head|..];
    assert r == d + (mid + p + tail);
    IndexOfAfterDigits(d, mid + p + tail);
    assert r[..|d|] == d;
    var after := r[|d|..];
    assert after == mid + p + tail;
    assert after[..|mid|] == mid;
    assert after[|after| - |tail|..] == tail;
    assert after[|mid|..|after| - |tail|] == p;
    DecimalRoundTrip(n);
  }

  // ---- src/index.ts ----

  /**
   * The frame `send` builds: a Subscribe frame quotes its payload, any other type interpolates
   * it bare. No spaces after the commas.
   */
  function EncodeRequest(msgType: Value, sequenceId: Value, payload: string): string
  {
    if msgType == Num(1) then "[" + Text(msgType) + "," + Text(sequenceId) + ",\"" + payload + "\"]"
    else "[" + Text(msgType) + "," + Text(sequenceId) + "," + payload + "]"
  }

  /** Reads a Subscribe frame `[1,<seq>,"<payload>"]`. */
  function DecodeSubscribe(frame: string): Option<(nat, string)>
  {
    SplitFrame(frame, "[1,", ",\"", "\"]")
  }

  /** Reads an Unsubscribe frame `[2,<seq>,<payload>]`. */
  function DecodeUnsubscribe(frame: string): Option<(nat, string)>
  {
    SplitFrame(frame, "[2,", ",", "]")
  }

  /** A Subscribe frame is exactly `[1,<seq>,"<payload>"]` and decodes to its id and payload. */
  lemma SubscribeFrameRoundTrip(sequenceId: nat, payload: string)
    ensures EncodeRequest(Num(1), Num(sequenceId), payload)
         == "[1," + Decimal(sequenceId) + ",\"" + payload + "\"]"
    ensures DecodeSubscribe(EncodeRequest(Num(1), Num(sequenceId), payload)) == Some((sequenceId, payload))
  {
    SubscribeFrameShape(sequenceId, payload);
    SplitFrameRoundTrip("[1,", ",\"", "\"]", sequenceId, payload);
  }

  lemma SubscribeFrameShape(sequenceId: nat, payload: string)
    ensures EncodeRequest(Num(1), Num(sequenceId), payload)
         == "[1," + Decimal(sequenceId) + ",\"" + payload + "\"]"
  {
    var d := Decimal(sequenceId);
    assert Text(Num(1)) == "1";
    assert Text(Num(sequenceId)) == d;
    assert "[" + "1" + "," == "[1,";
  }

  /** An Unsubscribe frame is exactly `[2,<seq>,<payload>]` and decodes to its id and payload. */
  lemma UnsubscribeFrameRoundTrip(sequenceId: nat, payload: string)
    ensures EncodeRequest(Num(2), Num(sequenceId), payload)
         == "[2," + Decimal(sequenceId) + "," + payload + "]"
    ensures DecodeUnsubscribe(EncodeRequest(Num(2), Num(sequenceId), payload)) == Some((sequenceId, payload))
  {
    UnsubscribeFrameShape(sequenceId, payload);
    SplitFrameRoundTrip("[2,", ",", "]", sequenceId, payload);
  }

  lemma UnsubscribeFrameShape(sequenceId: nat, payload: string)
    ensures EncodeRequest(Num(2), Num(sequenceId), payload)
         == "[2," + Decimal(sequenceId) + "," + payload + "]"
  {
    var d := Decimal(sequenceId);
    assert Text(Num(2)) == "2";
    assert Text(Num(sequenceId)) == d;
    assert "[" + "2" + "," == "[2,";
  }

  /** Frames of different requests differ: the encoding loses neither the id nor the payload. */
  lemma EncodeRequestInjective(t: int, m: nat, p: string, n: nat, q: string)
    requires t == 1 || t == 2
    requires EncodeRequest(Num(t), Num(m), p) == EncodeRequest(Num(t), Num(n), q)
    ensures m == n && p == q
  {
    if t == 1 {
      SubscribeFrameRoundTrip(m, p);
      SubscribeFrameRoundTrip(n, q);
    } else {
      UnsubscribeFrameRoundTrip(m, p);
      UnsubscribeFrameRoundTrip(n, q);
    }
  }

  /** A Subscribe frame never reads as an Unsubscribe frame, and vice versa. */
  lemma FrameKindsDiffer(m: nat, p: string, n: nat, q: string)
    ensures EncodeRequest(Num(1), Num(m), p) != EncodeRequest(Num(2), Num(n), q)
  {
    SubscribeFrameRoundTrip(m, p);
    UnsubscribeFrameRoundTrip(n, q);
    assert EncodeRequest(Num(1), Num(m), p)[1] == '1';
  }

  // ---- src/client.js ----

  /** The older client's subscribe frame `[1, <seqN>, "<uri>"]`, with a space after each comma. */
  function ClientSubscribeFrame(seqN: nat, uri: string): string
  {
    "[" + Text(Num(1)) + ", " + Text(Num(seqN)) + ", \"" + uri + "\"]"
  }

  /** The older client's unsubscribe frame `[2, <seqN>, <subId>]`, the id interpolated bare. */
  function ClientUnsubscribeFrame(seqN: nat, subId: Value): string
  {
    "[" + Text(Num(2)) + ", " + Text(Num(seqN)) + ", " + Text(subId) + "]"
  }

  function DecodeClientSubscribe(frame: string): Option<(nat, string)>
  {
    SplitFrame(frame, "[1, ", ", \"", "\"]")
  }

  function DecodeClientUnsubscribe(frame: string): Option<(nat, string)>
  {
    SplitFrame(frame, "[2, ", ", ", "]")
  }

  /** The older subscribe frame decodes to its sequence number and uri. */
  lemma ClientSubscribeFrameRoundTrip(seqN: nat, uri: string)
    ensures ClientSubscribeFrame(seqN, uri) == "[1, " + Decimal(seqN) + ", \"" + uri + "\"]"
    ensures DecodeClientSubscribe(ClientSubscribeFrame(seqN, uri)) == Some((seqN, uri))
  {
    ClientSubscribeFrameShape(seqN, uri);
    SplitFrameRoundTrip("[1, ", ", \"", "\"]", seqN, uri);
  }

  lemma ClientSubscribeFrameShape(seqN: nat, uri: string)
    ensures ClientSubscribeFrame(seqN, uri) == "[1, " + Decimal(seqN) + ", \"" + uri + "\"]"
  {
    var d := Decimal(seqN);
    assert Text(Num(1)) == "1";
    assert Text(Num(seqN)) == d;
    assert "[" + "1" + ", " == "[1, ";
  }

  /** The older unsubscribe frame decodes to its sequence number and the id's text. */
  lemma ClientUnsubscribeFrameRoundTrip(seqN: nat, subId: Value)
    ensures ClientUnsubscribeFrame(seqN, subId) == "[2, " + Decimal(seqN) + ", " + Text(subId) + "]"
    ensures DecodeClientUnsubscribe(ClientUnsubscribeFrame(seqN, subId)) == Some((seqN, Text(subId)))
  {
    var d, t := Decimal(seqN), Text(subId);
    assert Text(Num(2)) == "2";
    assert Text(Num(seqN)) == d;
    assert "[" + "2" + ", " + d + ", " + t + "]" == "[2, " + d + ", " + t + "]";
    SplitFrameRoundTrip("[2, ", ", ", "]", seqN, t);
  }
}
