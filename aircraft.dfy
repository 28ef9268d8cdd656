/**
 * The `Aircraft` entity: a mutable record keyed by ICAO address, whose setters each change
 * exactly one field. `AircraftRecord` is the value of its five fields at one moment.
 */
module AircraftEntity {
  import opened Wrappers
  import opened Primitives

  /** The state of one aircraft: where it was last seen, when (`tov`, epoch milliseconds) and its call sign. */
  datatype AircraftRecord = AircraftRecord(
    icaoAddress: Option<string>,
    latitude: real,
    longitude: real,
    tov: Long,
    callSign: Option<string>)

  class Aircraft {
    var icaoAddress: Option<string>
    var latitude: real
    var longitude: real
    var tov: Long
    var callSign: Option<string>

    /** The values of the entity's fields; each getter returns one component. */
    function Snapshot(): AircraftRecord
      reads this
    {
      AircraftRecord(icaoAddress, latitude, longitude, tov, callSign)
    }

    /** The no-argument constructor: Java's defaults, null references and zero numbers. */
    constructor Empty()
      ensures Snapshot() == AircraftRecord(None, 0.0, 0.0, 0, None)
    {
      icaoAddress, latitude, longitude, tov, callSign := None, 0.0, 0.0, 0, None;
    }

    /** The position constructor: the four given fields, and no call sign yet. */
    constructor (icaoAddress: Option<string>, latitude: real, longitude: real, tov: Long)
      ensures Snapshot() == AircraftRecord(icaoAddress, latitude, longitude, tov, None)
    {
      this.icaoAddress, this.latitude, this.longitude, this.tov := icaoAddress, latitude, longitude, tov;
      this.callSign := None;
    }

    method SetIcaoAddress(icaoAddress: Option<string>)
      modifies this
      ensures Snapshot() == old(Snapshot()).(icaoAddress := icaoAddress)
    {
      this.icaoAddress := icaoAddress;
    }

    method SetCallSign(callSign: Option<string>)
      modifies this
      ensures Snapshot() == old(Snapshot()).(callSign := callSign)
    {
      this.callSign := callSign;
    }

    method SetLatitude(latitude: real)
      modifies this
      ensures Snapshot() == old(Snapshot()).(latitude := latitude)
    {
      this.latitude := latitude;
    }

    method SetLongitude(longitude: real)
      modifies this
      ensures Snapshot() == old(Snapshot()).(longitude := longitude)
    {
      this.longitude := longitude;
    }

    method SetTov(tov: Long)
      modifies this
      ensures Snapshot() == old(Snapshot()).(tov := tov)
    {
      this.tov := tov;
    }
  }
}
