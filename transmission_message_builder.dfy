/**
 * `TransmissionMessage.Builder`: a mutable builder whose setters each assign one field
 * and return the builder itself, and whose `Build` copies every field into an
 * immutable `Transmission` message.
 */
module TransmissionMessageBuilder {
  import opened Wrappers
  import opened Primitives
  import opened Messages

  class Builder {
    const icaoAddress: string
    const timestamp: Instant
    var callSign: Option<string>
    var transmissionType: Option<TransmissionType>
    var altitude: Option<real>
    var groundSpeed: Option<real>
    var track: Option<real>
    var position: Option<GeoPoint>
    var verticalRate: Option<Short>
    var squawk: Option<Short>
    var alert: Option<bool>
    var emergency: Option<bool>
    var identActive: Option<bool>
    var onGround: Option<bool>

    /** The message `Build` would return in the builder's current state. */
    ghost function Pending(): TransmissionMessage
      reads this
    {
      Transmission(icaoAddress, timestamp, callSign, transmissionType, altitude, groundSpeed,
                   track, position, verticalRate, squawk, alert, emergency, identActive, onGround)
    }

    /** The two mandatory common fields are constructor arguments; every other field starts absent. */
    constructor (icaoAddress: string, timestamp: Instant)
      ensures Pending() == Transmission(icaoAddress, timestamp, None, None, None, None, None,
                                        None, None, None, None, None, None, None)
    {
      this.icaoAddress := icaoAddress;
      this.timestamp := timestamp;
      // Java leaves every other reference field null.
      callSign, transmissionType := None, None;
      altitude, groundSpeed, track, position := None, None, None, None;
      verticalRate, squawk := None, None;
      alert, emergency, identActive, onGround := None, None, None, None;
    }

    method Build() returns (m: Message)
      ensures m == Pending()
      ensures Discriminator(m) == "MSG" && IsCallSignMessage(m)
    {
      m := Transmission(icaoAddress, timestamp, callSign, transmissionType, altitude, groundSpeed,
                        track, position, verticalRate, squawk, alert, emergency, identActive, onGround);
    }

    method SetCallSign(callSign: Option<string>) returns (self: Builder)
      modifies this
      ensures self == this
      ensures var before := old(Pending()); Pending() == before.(callSign := callSign)
    {
      this.callSign := callSign;
      self := this;
    }

    method SetTransmissionType(transmissionType: Option<TransmissionType>) returns (self: Builder)
      modifies this
      ensures self == this
      ensures var before := old(Pending()); Pending() == before.(transmissionType := transmissionType)
    {
      this.transmissionType := transmissionType;
      self := this;
    }

    method SetAltitude(altitude: Option<real>) returns (self: Builder)
      modifies this
      ensures self == this
      ensures var before := old(Pending()); Pending() == before.(altitude := altitude)
    {
      this.altitude := altitude;
      self := this;
    }

    method SetGroundSpeed(groundSpeed: Option<real>) returns (self: Builder)
      modifies this
      ensures self == this
      ensures var before := old(Pending()); Pending() == before.(groundSpeed := groundSpeed)
    {
      this.groundSpeed := groundSpeed;
      self := this;
    }

    method SetTrack(track: Option<real>) returns (self: Builder)
      modifies this
      ensures self == this
      ensures var before := old(Pending()); Pending() == before.(track := track)
    {
      this.track := track;
      self := this;
    }

    method SetPosition(position: Option<GeoPoint>) returns (self: Builder)
      modifies this
      ensures self == this
      ensures var before := old(Pending()); Pending() == before.(position := position)
    {
      this.position := position;
      self := this;
    }

    method SetVerticalRate(verticalRate: Option<Short>) returns (self: Builder)
      modifies this
      ensures self == this
      ensures var before := old(Pending()); Pending() == before.(verticalRate := verticalRate)
    {
      this.verticalRate := verticalRate;
      self := this;
    }

    method SetSquawk(squawk: Option<Short>) returns (self: Builder)
      modifies this
      ensures self == this
      ensures var before := old(Pending()); Pending() == before.(squawk := squawk)
    {
      this.squawk := squawk;
      self := this;
    }

    method SetAlert(alert: Option<bool>) returns (self: Builder)
      modifies this
      ensures self == this
      ensures var before := old(Pending()); Pending() == before.(alert := alert)
    {
      this.alert := alert;
      self := this;
    }

    method SetEmergency(emergency: Option<bool>) returns (self: Builder)
      modifies this
      ensures self == this
      ensures var before := old(Pending()); Pending() == before.(emergency := emergency)
    {
      this.emergency := emergency;
      self := this;
    }

    method SetIdentActive(identActive: Option<bool>) returns (self: Builder)
      modifies this
      ensures self == this
      ensures var before := old(Pending()); Pending() == before.(identActive := identActive)
    {
      this.identActive := identActive;
      self := this;
    }

    method SetOnGround(onGround: Option<bool>) returns (self: Builder)
      modifies this
      ensures self == this
      ensures var before := old(Pending()); Pending() == before.(onGround := onGround)
    {
      this.onGround := onGround;
      self := this;
    }
  }

  /**
   * A message built by setting only the type and the position: every field the builder was
   * never given is absent, with no zero or default put in its place.
   */
  method BuildAirbornePosition(icaoAddress: string, timestamp: Instant, position: GeoPoint)
    returns (m: Message)
    ensures m.Transmission? && m.icaoAddress == icaoAddress && m.timestamp == timestamp
    ensures m.transmissionType == Some(AIRBORNE_POSITION) && m.position == Some(position)
    ensures m.callSign == None && m.altitude == None && m.groundSpeed == None && m.track == None
    ensures m.verticalRate == None && m.squawk == None
    ensures m.alert == None && m.emergency == None && m.identActive == None && m.onGround == None
  {
    var b := new Builder(icaoAddress, timestamp);
    b := b.SetTransmissionType(Some(AIRBORNE_POSITION));
    b := b.SetPosition(Some(position));
    m := b.Build();
  }

  /**
   * Feeding every getter of a transmission message back through the builder, in the
   * source's setter order, builds an equal message: `Build` copies each field unchanged.
   */
  method Rebuild(source: Message) returns (m: Message)
    requires source.Transmission?
    ensures m == source
  {
    var b := new Builder(source.icaoAddress, source.timestamp);
    b := b.SetCallSign(source.callSign);
    b := b.SetTransmissionType(source.transmissionType);
    b := b.SetAltitude(source.altitude);
    b := b.SetGroundSpeed(source.groundSpeed);
    b := b.SetTrack(source.track);
    b := b.SetPosition(source.position);
    b := b.SetVerticalRate(source.verticalRate);
    b := b.SetSquawk(source.squawk);
    b := b.SetAlert(source.alert);
    b := b.SetEmergency(source.emergency);
    b := b.SetIdentActive(source.identActive);
    b := b.SetOnGround(source.onGround);
    m := b.Build();
  }

  /** Setting a field twice keeps the value given last. */
  method LastSetWins(icaoAddress: string, timestamp: Instant, first: Option<real>, last: Option<real>)
    returns (m: Message)
    ensures m == Transmission(icaoAddress, timestamp, None, None, last,
                              None, None, None, None, None, None, None, None, None)
  {
    var b := new Builder(icaoAddress, timestamp);
    b := b.SetAltitude(first);
    b := b.SetAltitude(last);
    m := b.Build();
  }
}
