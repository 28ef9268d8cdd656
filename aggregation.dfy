/**
 * What one consumed message does to the aircraft table while persistence is on, as a
 * function of the table before it, and what a stream of such messages does. The
 * endpoint's `Consume` is proved to perform exactly `ApplyMessage`.
 */
module Aggregation {
  import opened Wrappers
  import opened Primitives
  import opened Messages
  import opened AircraftEntity
  import opened Repository

  /** The error a consumed message can raise: its timestamp's millisecond count overflows a `long`. */
  datatype ConsumeError = EpochMilliOverflow

  /** An airborne-position transmission that carries a position. */
  predicate IsPositionFix(m: Message) {
    m.Transmission? && m.transmissionType == Some(AIRBORNE_POSITION) && m.position.Some?
  }

  /** An airborne-position transmission without a position. */
  predicate IsPositionWithoutFix(m: Message) {
    m.Transmission? && m.transmissionType == Some(AIRBORNE_POSITION) && m.position.None?
  }

  /** A surveillance-identity transmission or an identity message. */
  predicate IsIdentityUpdate(m: Message) {
    m.Id? || (m.Transmission? && m.transmissionType == Some(SURVEILLANCE_ID))
  }

  /** A call sign the endpoint records: present and not the empty string (blank is not trimmed). */
  predicate IsUsableCallSign(callSign: Option<string>) {
    callSign.Some? && |callSign.value| > 0
  }

  /** The row a position sighting leaves under its address: a new row, or the old one with the position and time replaced. */
  function Sighted(table: Table, icaoAddress: string, p: GeoPoint, tov: Long): AircraftRecord {
    if icaoAddress in table then
      table[icaoAddress].(latitude := p.lat, longitude := p.lon, tov := tov)
    else
      AircraftRecord(Some(icaoAddress), p.lat, p.lon, tov, None)
  }

  /** The table after an identity update: the existing row, if any, with the call sign replaced when it is usable. */
  function Identified(table: Table, icaoAddress: string, callSign: Option<string>): Table {
    if icaoAddress in table && IsUsableCallSign(callSign) then
      table[icaoAddress := table[icaoAddress].(callSign := callSign)]
    else
      table
  }

  /**
   * The aircraft table after `consume` has handled `m` with persistence on. Only a position
   * sighting adds a row; no message deletes one or touches another address's row; an
   * overflowing timestamp raises an error before the table is read.
   */
  function ApplyMessage(table: Table, m: Message): (r: Result<Table, ConsumeError>)
    ensures r.Failure? ==> IsPositionFix(m) && ToEpochMilli(m.timestamp).None?
    ensures r.Success? ==> table.Keys <= r.value.Keys
    ensures r.Success? ==> forall k :: k in r.value && k != m.icaoAddress ==> k in table && r.value[k] == table[k]
    ensures r.Success? && !IsPositionFix(m) ==> r.value.Keys == table.Keys
    ensures r.Success? && KeyedByAddress(table) ==> KeyedByAddress(r.value)
  {
    match m
    case Transmission(icaoAddress, timestamp, callSign, transmissionType, _, _, _, position, _, _, _, _, _, _) =>
      if transmissionType == Some(AIRBORNE_POSITION) then
        match position
        case None => Success(table)
        case Some(p) =>
          match ToEpochMilli(timestamp)
          case None => Failure(EpochMilliOverflow)
          case Some(tov) => Success(table[icaoAddress := Sighted(table, icaoAddress, p, tov)])
      else if transmissionType == Some(SURVEILLANCE_ID) then
        Success(Identified(table, icaoAddress, callSign))
      else
        Success(table)
    case Id(icaoAddress, _, callSign) =>
      Success(Identified(table, icaoAddress, callSign))
    case NewAircraft(_, _) =>
      Success(table)
  }

  /** The table after a stream of messages; a message that raises an error leaves the table as it was. */
  function ApplyAll(table: Table, ms: seq<Message>): Table
    decreases |ms|
  {
    if ms == [] then table
    else
      var next := match ApplyMessage(table, ms[0]) case Success(t) => t case Failure(_) => table;
      ApplyAll(next, ms[1..])
  }

  // Position sightings

  /** A sighting of an unseen address adds exactly one row: that address, the message's position, its time in epoch milliseconds, no call sign. */
  lemma SightingCreatesRow(table: Table, m: Message)
    requires IsPositionFix(m) && ToEpochMilli(m.timestamp).Some?
    requires m.icaoAddress !in table
    ensures ApplyMessage(table, m).Success?
    ensures var t := ApplyMessage(table, m).value;
      && t.Keys == table.Keys + {m.icaoAddress}
      && |t| == |table| + 1
      && t[m.icaoAddress] == AircraftRecord(Some(m.icaoAddress), m.position.value.lat,
                                            m.position.value.lon, ToEpochMilli(m.timestamp).value, None)
  {
  }

  /** A sighting of a known address replaces only its latitude, longitude and time; address and call sign stay, and so does every other row. */
  lemma SightingOverwritesPosition(table: Table, m: Message)
    requires IsPositionFix(m) && ToEpochMilli(m.timestamp).Some?
    requires m.icaoAddress in table
    ensures ApplyMessage(table, m).Success?
    ensures var t := ApplyMessage(table, m).value;
      && t.Keys == table.Keys
      && t[m.icaoAddress].latitude == m.position.value.lat
      && t[m.icaoAddress].longitude == m.position.value.lon
      && t[m.icaoAddress].tov == ToEpochMilli(m.timestamp).value
      && t[m.icaoAddress].icaoAddress == table[m.icaoAddress].icaoAddress
      && t[m.icaoAddress].callSign == table[m.icaoAddress].callSign
  {
  }

  /** A sighting whose timestamp overflows a `long` in milliseconds raises the error. */
  lemma SightingOverflowFails(table: Table, m: Message)
    requires IsPositionFix(m) && ToEpochMilli(m.timestamp).None?
    ensures ApplyMessage(table, m) == Failure(EpochMilliOverflow)
  {
  }

  /** An airborne-position transmission without a position changes nothing. */
  lemma MissingPositionIsIgnored(table: Table, m: Message)
    requires IsPositionWithoutFix(m)
    ensures ApplyMessage(table, m) == Success(table)
  {
  }

  // Identity updates

  /**
   * An identity update never adds a row; on the row of its address it sets the call sign
   * exactly when the call sign is present and non-empty, and changes nothing else.
   */
  lemma IdentityUpdatesOnlyCallSign(table: Table, m: Message)
    requires IsIdentityUpdate(m)
    ensures ApplyMessage(table, m).Success?
    ensures var t := ApplyMessage(table, m).value;
      && t.Keys == table.Keys
      && (m.icaoAddress in table ==>
            t[m.icaoAddress] == if IsUsableCallSign(m.callSign)
                                then table[m.icaoAddress].(callSign := m.callSign)
                                else table[m.icaoAddress])
  {
  }

  /** Every other message (other transmission types, a transmission with no type, a new-aircraft marker) leaves the table alone. */
  lemma OtherMessagesIgnored(table: Table, m: Message)
    requires !IsPositionFix(m) && !IsIdentityUpdate(m)
    ensures ApplyMessage(table, m) == Success(table)
  {
  }

  /**
   * Consuming the same message twice leaves the table as consuming it once, for every message:
   * a second application changes nothing, and an overflowing message fails both times.
   */
  lemma ApplyIdempotent(table: Table, m: Message)
    ensures ApplyAll(table, [m, m]) == ApplyAll(table, [m])
  {
    assert [m, m][1..] == [m];
    match ApplyMessage(table, m)
    case Failure(_) =>
    case Success(t) =>
      if IsPositionFix(m) {
        var tov := ToEpochMilli(m.timestamp).value;
        assert Sighted(t, m.icaoAddress, m.position.value, tov) == t[m.icaoAddress];
        assert t[m.icaoAddress := t[m.icaoAddress]] == t;
      } else if IsIdentityUpdate(m) && m.icaoAddress in table && IsUsableCallSign(m.callSign) {
        assert t[m.icaoAddress := t[m.icaoAddress].(callSign := m.callSign)] == t;
      }
      assert ApplyMessage(t, m) == Success(t);
      assert ApplyAll(t, []) == t;
  }

  // Streams of messages

  /** A stream with no message for address `a` leaves `a`'s row, or its absence, as it was. */
  lemma {:induction false} OtherAddressesLeaveRowAlone(table: Table, ms: seq<Message>, a: string)
    requires forall i :: 0 <= i < |ms| ==> ms[i].icaoAddress != a
    ensures a in ApplyAll(table, ms) <==> a in table
    ensures a in table ==> ApplyAll(table, ms)[a] == table[a]
    decreases |ms|
  {
    if ms != [] {
      var next := match ApplyMessage(table, ms[0]) case Success(t) => t case Failure(_) => table;
      OtherAddressesLeaveRowAlone(next, ms[1..], a);
    }
  }

  /** No stream removes a row: aircraft that go stale stay in the table. */
  lemma {:induction false} ApplyAllNeverDeletes(table: Table, ms: seq<Message>)
    ensures table.Keys <= ApplyAll(table, ms).Keys
    decreases |ms|
  {
    if ms != [] {
      var next := match ApplyMessage(table, ms[0]) case Success(t) => t case Failure(_) => table;
      ApplyAllNeverDeletes(next, ms[1..]);
    }
  }

  /** Every row stays stored under its own address, whatever the stream. */
  lemma {:induction false} ApplyAllKeepsKeying(table: Table, ms: seq<Message>)
    requires KeyedByAddress(table)
    ensures KeyedByAddress(ApplyAll(table, ms))
    decreases |ms|
  {
    if ms != [] {
      var next := match ApplyMessage(table, ms[0]) case Success(t) => t case Failure(_) => table;
      ApplyAllKeepsKeying(next, ms[1..]);
    }
  }

  /** Identity before position: without a position sighting of `a`, no stream creates a row for `a`. */
  lemma {:induction false} OnlySightingsCreateRows(table: Table, ms: seq<Message>, a: string)
    requires a !in table
    requires forall i :: 0 <= i < |ms| ==> !(IsPositionFix(ms[i]) && ms[i].icaoAddress == a)
    ensures a !in ApplyAll(table, ms)
    decreases |ms|
  {
    if ms != [] {
      var next := match ApplyMessage(table, ms[0]) case Success(t) => t case Failure(_) => table;
      assert a !in next;
      OnlySightingsCreateRows(next, ms[1..], a);
    }
  }

  /** Applying a stream split in two is applying the first part, then the second. */
  lemma {:induction false} ApplyAllAppend(table: Table, ms: seq<Message>, ns: seq<Message>)
    ensures ApplyAll(table, ms + ns) == ApplyAll(ApplyAll(table, ms), ns)
    decreases |ms|
  {
    if ms == [] {
      assert ms + ns == ns;
    } else {
      var next := match ApplyMessage(table, ms[0]) case Success(t) => t case Failure(_) => table;
      assert (ms + ns)[1..] == ms[1..] + ns;
      ApplyAllAppend(next, ms[1..], ns);
    }
  }

  /**
   * Ordering: two sightings of `a`, the first before the second, with messages for other
   * addresses in between, leave the second sighting's position and time for `a`.
   */
  lemma LaterSightingWins(table: Table, first: Message, between: seq<Message>, second: Message)
    requires IsPositionFix(first) && IsPositionFix(second)
    requires first.icaoAddress == second.icaoAddress
    requires ToEpochMilli(first.timestamp).Some? && ToEpochMilli(second.timestamp).Some?
    requires forall i :: 0 <= i < |between| ==> between[i].icaoAddress != first.icaoAddress
    ensures var t := ApplyAll(table, [first] + between + [second]);
      && first.icaoAddress in t
      && t[first.icaoAddress].latitude == second.position.value.lat
      && t[first.icaoAddress].longitude == second.position.value.lon
      && t[first.icaoAddress].tov == ToEpochMilli(second.timestamp).value
  {
    var a := first.icaoAddress;
    var t1 := ApplyMessage(table, first).value;
    assert ApplyAll(table, [first]) == t1 by {
      assert ApplyAll(t1, []) == t1;
    }
    ApplyAllAppend(table, [first], between);
    OtherAddressesLeaveRowAlone(t1, between, a);
    var t2 := ApplyAll(t1, between);
    assert a in t2;
    ApplyAllAppend(table, [first] + between, [second]);
    var t3 := ApplyMessage(t2, second).value;
    assert ApplyAll(t2, [second]) == t3 by {
      assert ApplyAll(t3, []) == t3;
    }
    SightingOverwritesPosition(t2, second);
  }

  /** A sighting followed by a usable identity update leaves a row with both the position and the call sign. */
  lemma SightingThenIdentity(table: Table, sighting: Message, identity: Message)
    requires IsPositionFix(sighting) && ToEpochMilli(sighting.timestamp).Some?
    requires IsIdentityUpdate(identity) && identity.icaoAddress == sighting.icaoAddress
    requires IsUsableCallSign(identity.callSign)
    ensures var t := ApplyAll(table, [sighting, identity]);
      && sighting.icaoAddress in t
      && t[sighting.icaoAddress].latitude == sighting.position.value.lat
      && t[sighting.icaoAddress].longitude == sighting.position.value.lon
      && t[sighting.icaoAddress].callSign == identity.callSign
  {
    var t1 := ApplyMessage(table, sighting).value;
    var t2 := ApplyMessage(t1, identity).value;
    assert [sighting, identity][1..] == [identity];
    assert ApplyAll(t1, [identity]) == t2 by {
      assert ApplyAll(t2, []) == t2;
    }
  }

  /** A sighting with a time after the cut-off makes its aircraft appear in the staleness query, stale before or not. */
  lemma SightingIsLive(table: Table, m: Message, t: int)
    requires IsPositionFix(m) && ToEpochMilli(m.timestamp).Some?
    requires ToEpochMilli(m.timestamp).value > t
    ensures ApplyMessage(table, m).Success?
    ensures m.icaoAddress in ApplyMessage(table, m).value
    ensures ApplyMessage(table, m).value[m.icaoAddress] in TovGreaterThan(ApplyMessage(table, m).value, t)
    ensures m.icaoAddress in table ==> |ApplyMessage(table, m).value| == |table|
  {
  }
}
