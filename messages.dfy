/**
 * The BaseStation message entities as one closed sum type. Each Java subclass of
 * `BaseStationMessage` that the aggregation engine distinguishes is a constructor;
 * a built message is immutable, and its getters are the datatype's destructors.
 */
module Messages {
  import opened Wrappers
  import opened Primitives

  /** The BaseStation "MSG" transmission types, numbered 1 to 8 in the wire format. */
  datatype TransmissionType =
    | ES_IDENTIFICATION_AND_CATEGORY
    | ES_SURFACE_POSITION
    | AIRBORNE_POSITION
    | AIRBORNE_VELOCITY
    | SURVEILLANCE_ALT
    | SURVEILLANCE_ID
    | AIR_TO_AIR
    | ALL_CALL_REPLY

  /** A geolatte `Point<G2D>`: a longitude and a latitude, carried but never computed with. */
  datatype GeoPoint = GeoPoint(lon: real, lat: real)

  /**
   * A BaseStation message. Every variant carries the common fields `icaoAddress` and
   * `timestamp`; `Transmission` and `Id` are the call-sign-carrying variants; a field
   * that was never given a value is `None`.
   */
  datatype Message =
    | Transmission(
        icaoAddress: string,
        timestamp: Instant,
        callSign: Option<string>,
        transmissionType: Option<TransmissionType>,
        altitude: Option<real>,
        groundSpeed: Option<real>,
        track: Option<real>,
        position: Option<GeoPoint>,
        verticalRate: Option<Short>,
        squawk: Option<Short>,
        alert: Option<bool>,
        emergency: Option<bool>,
        identActive: Option<bool>,
        onGround: Option<bool>)
    | NewAircraft(icaoAddress: string, timestamp: Instant)
    | Id(icaoAddress: string, timestamp: Instant, callSign: Option<string>)

  /** A `TransmissionMessage`: the messages built by `TransmissionMessage.Builder`. */
  type TransmissionMessage = m: Message | m.Transmission?
    witness Transmission("", EpochInstant(0, 0), None, None, None, None, None, None, None, None, None, None, None, None)

  /** Whether the message is a `CallSignMessage`, the variants that have a call sign. */
  predicate IsCallSignMessage(m: Message) {
    m.Transmission? || m.Id?
  }

  /** The value of the discriminator column under which the message's variant is stored. */
  function Discriminator(m: Message): (d: string)
    ensures d == "MSG" <==> m.Transmission?
    ensures d == "AIR" <==> m.NewAircraft?
    ensures d == "ID" <==> m.Id?
  {
    match m
    case Transmission(_, _, _, _, _, _, _, _, _, _, _, _, _, _) => "MSG"
    case NewAircraft(_, _) => "AIR"
    case Id(_, _, _) => "ID"
  }

  /**
   * `new NewAircraftMessage.Builder(icaoAddress, timestamp).build()`: a message holding only the
   * two common fields, stored as "AIR", with no call sign.
   */
  function BuildNewAircraftMessage(icaoAddress: string, timestamp: Instant): (m: Message)
    ensures m.icaoAddress == icaoAddress && m.timestamp == timestamp
    ensures Discriminator(m) == "AIR" && !IsCallSignMessage(m)
  {
    NewAircraft(icaoAddress, timestamp)
  }
}
