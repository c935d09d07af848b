/** The protocol's numeric enumerations and the status-code naming function. */
module Constants {
  import opened Base

  /** The leading tag of every frame. */
  datatype MessageType = Subscribe | Unsubscribe | Event | Resync
  {
    /** The enum's numeric value: members are numbered upwards from Subscribe = 1. */
    function Tag(): int
    {
      match this
      case Subscribe => 1
      case Unsubscribe => 2
      case Event => 3
      case Resync => 4
    }
  }

  /** The member with a given numeric value, if any (the enum's reverse mapping). */
  function MessageTypeOf(tag: int): (t: Option<MessageType>)
  {
    if tag == 1 then Some(Subscribe)
    else if tag == 2 then Some(Unsubscribe)
    else if tag == 3 then Some(Event)
    else if tag == 4 then Some(Resync)
    else None
  }

  /** The tags are exactly 1 to 4, and the reverse mapping inverts `Tag`. */
  lemma MessageTypeTags(t: MessageType, tag: int)
    ensures 1 <= t.Tag() <= 4
    ensures MessageTypeOf(t.Tag()) == Some(t)
    ensures MessageTypeOf(tag).Some? <==> 1 <= tag <= 4
    ensures MessageTypeOf(tag).Some? ==> MessageTypeOf(tag).value.Tag() == tag
  {
  }

  /** Status codes the service reports in replies. */
  datatype StatusCode = Success | UnknownResource | SubscriptionLimitReached | NoResourceData
                      | Throttled | ServiceUnavailable
  {
    function Code(): int
    {
      match this
      case Success => 0
      case UnknownResource => 1
      case SubscriptionLimitReached => 2
      case NoResourceData => 3
      case Throttled => 1001
      case ServiceUnavailable => 1002
    }
  }

  /** The StatusCode member with a given code, if any. */
  function StatusCodeOf(code: int): Option<StatusCode>
  {
    if code == 0 then Some(Success)
    else if code == 1 then Some(UnknownResource)
    else if code == 2 then Some(SubscriptionLimitReached)
    else if code == 3 then Some(NoResourceData)
    else if code == 1001 then Some(Throttled)
    else if code == 1002 then Some(ServiceUnavailable)
    else None
  }

  /** `convertRTAStatus`: the name of a status code, "Unknown" for a code outside the enum. */
  function ConvertRTAStatus(status: int): (name: string)
    ensures name == "Unknown" <==> StatusCodeOf(status).None?
  {
    if status == Success.Code() then "Success"
    else if status == UnknownResource.Code() then "UnknownResource"
    else if status == SubscriptionLimitReached.Code() then "SubscriptionLimitReached"
    else if status == NoResourceData.Code() then "NoResourceData"
    else if status == Throttled.Code() then "Throttled"
    else if status == ServiceUnavailable.Code() then "ServiceUnavailable"
    else "Unknown"
  }

  /** The six codes and their names. */
  lemma ConvertKnownCodes()
    ensures ConvertRTAStatus(0) == "Success"
    ensures ConvertRTAStatus(1) == "UnknownResource"
    ensures ConvertRTAStatus(2) == "SubscriptionLimitReached"
    ensures ConvertRTAStatus(3) == "NoResourceData"
    ensures ConvertRTAStatus(1001) == "Throttled"
    ensures ConvertRTAStatus(1002) == "ServiceUnavailable"
  {
  }

  /** Every member's code is found again by `StatusCodeOf`; distinct members have distinct codes. */
  lemma StatusCodesRoundTrip(c: StatusCode, d: StatusCode)
    ensures StatusCodeOf(c.Code()) == Some(c)
    ensures c.Code() == d.Code() ==> c == d
  {
  }

  /**
   * No two known codes share a name, and no known code is named "Unknown": a name other than
   * "Unknown" determines the code it came from.
   */
  lemma ConvertRTAStatusInjective(a: int, b: int)
    requires ConvertRTAStatus(a) == ConvertRTAStatus(b)
    requires ConvertRTAStatus(a) != "Unknown"
    ensures a == b
  {
    var na, nb := ConvertRTAStatus(a), ConvertRTAStatus(b);
    // The names differ in length or in their first letters.
    assert na[0] == nb[0] && |na| == |nb|;
  }
}
