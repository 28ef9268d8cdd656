# dump1090-processor aircraft aggregation, modelled in Dafny

This project models the aircraft-state aggregation engine of dump1090-processor. The engine
consumes parsed BaseStation (SBS) messages from an ADS-B receiver. For each message it does
three things:

- It logs the message, if persistence is on.
- It dispatches on the message's variant and transmission type.
- It applies the matching rule to a store of `Aircraft` rows keyed by ICAO address.

The model covers the message entities, their builders, the entity, the repository and its
staleness query, and the endpoint.

Modules, one per source component:

- `Wrappers`: `Option` (Java `null`), `Result` and `Outcome` (Java exceptions).
- `Primitives`: the Java `long` and `short` ranges, and `java.time.Instant`. Its
  `toEpochMilli` is modelled branch for branch, including its `ArithmeticException` on overflow.
- `Messages`: `BaseStationMessage` and its variants as one closed datatype. `Transmission` is
  `TransmissionMessage` (stored as "MSG"). `NewAircraft` is `NewAircraftMessage` ("AIR"). `Id`
  is `IdMessage`. The module also holds the `TransmissionType` enumeration.
- `TransmissionMessageBuilder`: the mutable `TransmissionMessage.Builder` as a class.
- `AircraftEntity`: the mutable `Aircraft` entity as a class, with `AircraftRecord` as the
  value of its fields.
- `Repository`: the aircraft store as a class over a `map<string, AircraftRecord>`, and
  `findAllByTovGreaterThan` as a pure function over that map.
- `Aggregation`: `ApplyMessage` is the effect of one `consume` call on the store, as a function
  of the old store. `ApplyAll` is the effect of a stream of calls. The module also holds the
  lemmas about both.
- `Integration`: `BaseStationMessageEndpoint` as a class. `Consume` is proved to change the
  store to exactly `ApplyMessage` of the old store.

Three behaviours of the code differ from what an aggregation engine might be expected to do.
The model follows the code in each case:

- Every store update in `consume` is nested inside the `persistMessages` check. With
  persistence off, the store is not updated at all, so turning persistence off also stops
  aircraft tracking. An engine whose table stays current whatever the flag would update the
  store outside that check.
- A call sign is recorded when it is non-null and `isEmpty()` is false. A blank call sign is
  meant to count as no value, but the code does not trim it, so a call sign made only of
  blanks is recorded.
- The repository offers only the strict `tov > t` query. Computing `t` as "now minus the
  staleness window" is the caller's job.

`BaseStationMessage`, `CallSignMessage`, `IdMessage` and `TransmissionType` are not part of
this model's source files. They are defined minimally, from how the endpoint uses them:

- the common fields `icaoAddress` and `timestamp`;
- `callSign` on the call-sign variants;
- the eight BaseStation transmission types.

The discriminator "ID" for `IdMessage` is the BaseStation record code. It is not visible in
the source.

## Model

| member | source | states |
|---|---|---|
| `Primitives.ToEpochMilli` | src/main/java/org/codebrewer/dump1090processor/basestation/integration/BaseStationMessageEndpoint.java:112 | `tov` is an integer millisecond count: the floor of the instant's nanoseconds divided by 10^6. The result is absent exactly when that count does not fit a `long`, which is where Java throws. |
| `Messages.Discriminator` | src/main/java/org/codebrewer/dump1090processor/basestation/entity/TransmissionMessage.java:30-31 | A transmission message is tagged "MSG", a new-aircraft message "AIR" and an identity message "ID". Each tag identifies exactly one variant. |
| `Messages.BuildNewAircraftMessage` | src/main/java/org/codebrewer/dump1090processor/basestation/entity/NewAircraftMessage.java:52-59 | The builder takes the address and timestamp. The built message carries only those two fields, is tagged "AIR" and is not a call-sign message. |
| `TransmissionMessageBuilder.Builder.constructor` | src/main/java/org/codebrewer/dump1090processor/basestation/entity/TransmissionMessage.java:133-135 | Address and timestamp are mandatory arguments. Every other field starts absent. |
| `TransmissionMessageBuilder.Builder.Build` | src/main/java/org/codebrewer/dump1090processor/basestation/entity/TransmissionMessage.java:50-63 | The built message holds exactly the builder's current field values, tagged "MSG", as a call-sign message. |
| `TransmissionMessageBuilder.Builder.SetCallSign` | src/main/java/org/codebrewer/dump1090processor/basestation/entity/TransmissionMessage.java:112 | The inherited call-sign setter changes only the call sign and returns the same builder. |
| `TransmissionMessageBuilder.Builder.SetTransmissionType` | src/main/java/org/codebrewer/dump1090processor/basestation/entity/TransmissionMessage.java:147-151 | Changes only the transmission type and returns the same builder. |
| `TransmissionMessageBuilder.Builder.SetAltitude` | src/main/java/org/codebrewer/dump1090processor/basestation/entity/TransmissionMessage.java:153-157 | Changes only the altitude and returns the same builder. |
| `TransmissionMessageBuilder.Builder.SetGroundSpeed` | src/main/java/org/codebrewer/dump1090processor/basestation/entity/TransmissionMessage.java:159-163 | Changes only the ground speed and returns the same builder. |
| `TransmissionMessageBuilder.Builder.SetTrack` | src/main/java/org/codebrewer/dump1090processor/basestation/entity/TransmissionMessage.java:165-169 | Changes only the track and returns the same builder. |
| `TransmissionMessageBuilder.Builder.SetPosition` | src/main/java/org/codebrewer/dump1090processor/basestation/entity/TransmissionMessage.java:171-175 | Changes only the position and returns the same builder. |
| `TransmissionMessageBuilder.Builder.SetVerticalRate` | src/main/java/org/codebrewer/dump1090processor/basestation/entity/TransmissionMessage.java:177-181 | Changes only the vertical rate and returns the same builder. |
| `TransmissionMessageBuilder.Builder.SetSquawk` | src/main/java/org/codebrewer/dump1090processor/basestation/entity/TransmissionMessage.java:183-187 | Changes only the squawk and returns the same builder. |
| `TransmissionMessageBuilder.Builder.SetAlert` | src/main/java/org/codebrewer/dump1090processor/basestation/entity/TransmissionMessage.java:189-193 | Changes only the alert flag and returns the same builder. |
| `TransmissionMessageBuilder.Builder.SetEmergency` | src/main/java/org/codebrewer/dump1090processor/basestation/entity/TransmissionMessage.java:195-199 | Changes only the emergency flag and returns the same builder. |
| `TransmissionMessageBuilder.Builder.SetIdentActive` | src/main/java/org/codebrewer/dump1090processor/basestation/entity/TransmissionMessage.java:201-205 | Changes only the ident flag and returns the same builder. |
| `TransmissionMessageBuilder.Builder.SetOnGround` | src/main/java/org/codebrewer/dump1090processor/basestation/entity/TransmissionMessage.java:207-211 | Changes only the on-ground flag and returns the same builder. |
| `TransmissionMessageBuilder.BuildAirbornePosition` | src/main/java/org/codebrewer/dump1090processor/basestation/entity/TransmissionMessage.java:113-123 | A builder given only a type and a position builds a message with those two values. Every field it was never given is absent; none is replaced by zero or a default. |
| `TransmissionMessageBuilder.Rebuild` | src/main/java/org/codebrewer/dump1090processor/basestation/entity/TransmissionMessage.java:50-107 | Passing every getter of a message back through the setters builds an equal message. Every built field equals the value last given to its setter. |
| `TransmissionMessageBuilder.LastSetWins` | src/main/java/org/codebrewer/dump1090processor/basestation/entity/TransmissionMessage.java:153-157 | A field set twice holds the second value. The built message keeps the builder's address and timestamp, and every other field stays absent. |
| `AircraftEntity.Aircraft.Empty` | src/main/java/org/codebrewer/dump1090processor/basestation/entity/Aircraft.java:20-22 | The no-argument constructor gives null references and zero numbers. |
| `AircraftEntity.Aircraft.constructor` | src/main/java/org/codebrewer/dump1090processor/basestation/entity/Aircraft.java:24-30 | Sets address, latitude, longitude and `tov` to its arguments. The call sign is absent. |
| `AircraftEntity.Aircraft.SetIcaoAddress` | src/main/java/org/codebrewer/dump1090processor/basestation/entity/Aircraft.java:36-38 | Changes only the address; the other four fields are unchanged. |
| `AircraftEntity.Aircraft.SetCallSign` | src/main/java/org/codebrewer/dump1090processor/basestation/entity/Aircraft.java:44-46 | Changes only the call sign; the other four fields are unchanged. |
| `AircraftEntity.Aircraft.SetLatitude` | src/main/java/org/codebrewer/dump1090processor/basestation/entity/Aircraft.java:52-54 | Changes only the latitude; the other four fields are unchanged. |
| `AircraftEntity.Aircraft.SetLongitude` | src/main/java/org/codebrewer/dump1090processor/basestation/entity/Aircraft.java:60-62 | Changes only the longitude; the other four fields are unchanged. |
| `AircraftEntity.Aircraft.SetTov` | src/main/java/org/codebrewer/dump1090processor/basestation/entity/Aircraft.java:68-70 | Changes only `tov`; the other four fields are unchanged. |
| `Repository.TovGreaterThan` | src/main/java/org/codebrewer/dump1090processor/basestation/repository/AircraftRepository.java:13 | A stored aircraft is returned exactly when its `tov` is strictly greater than the cut-off. Everything returned is stored. |
| `Repository.AircraftRepository.FindAllByTovGreaterThan` | src/main/java/org/codebrewer/dump1090processor/basestation/repository/AircraftRepository.java:13 | The repository's query is `TovGreaterThan` over the stored rows: a stored aircraft is returned exactly when its `tov` is strictly greater than the argument. It reads the store and changes nothing. |
| `Repository.StalenessBoundary` | src/main/java/org/codebrewer/dump1090processor/basestation/repository/AircraftRepository.java:13 | An aircraft with `tov` equal to the cut-off is excluded. One with `tov` one millisecond later is included. |
| `Repository.QueryNarrowsWithCutOff` | src/main/java/org/codebrewer/dump1090processor/basestation/repository/AircraftRepository.java:13 | A later cut-off returns a subset of what an earlier one returns. |
| `Repository.AircraftRepository.FindById` | src/main/java/org/codebrewer/dump1090processor/basestation/repository/AircraftRepository.java:11 | Finds an aircraft exactly when its address is stored. The result is a new entity holding the row last saved under that address. |
| `Repository.AircraftRepository.Save` | src/main/java/org/codebrewer/dump1090processor/basestation/repository/AircraftRepository.java:11 | Upserts the entity's fields under its address. Every other row is unchanged, and each row stays keyed by its own address. |
| `Aggregation.ApplyMessage` | src/main/java/org/codebrewer/dump1090processor/basestation/integration/BaseStationMessageEndpoint.java:101-167 | No message deletes a row or changes another address's row. Only a position sighting adds a row. An error is raised only by a sighting whose timestamp overflows. Rows stay keyed by their address. |
| `Aggregation.SightingCreatesRow` | src/main/java/org/codebrewer/dump1090processor/basestation/integration/BaseStationMessageEndpoint.java:105-128 | A sighting of an unseen address adds exactly one row. The row holds that address, the message's latitude and longitude, the timestamp in epoch millis as `tov`, and no call sign. |
| `Aggregation.SightingOverwritesPosition` | src/main/java/org/codebrewer/dump1090processor/basestation/integration/BaseStationMessageEndpoint.java:114-122 | A sighting of a known address replaces only latitude, longitude and `tov`. The address, the call sign and the set of addresses stay the same. |
| `Aggregation.SightingOverflowFails` | src/main/java/org/codebrewer/dump1090processor/basestation/integration/BaseStationMessageEndpoint.java:112 | A sighting whose timestamp does not fit a `long` in milliseconds raises the overflow error. |
| `Aggregation.MissingPositionIsIgnored` | src/main/java/org/codebrewer/dump1090processor/basestation/integration/BaseStationMessageEndpoint.java:109-131 | An airborne-position transmission without a position leaves the store unchanged. |
| `Aggregation.IdentityUpdatesOnlyCallSign` | src/main/java/org/codebrewer/dump1090processor/basestation/integration/BaseStationMessageEndpoint.java:132-166 | A surveillance-identity transmission or an identity message never adds a row. For an existing row it sets the call sign exactly when the call sign is non-null and non-empty. Otherwise the row is unchanged. |
| `Aggregation.OtherMessagesIgnored` | src/main/java/org/codebrewer/dump1090processor/basestation/integration/BaseStationMessageEndpoint.java:101-167 | Every other message leaves the store unchanged: other transmission types, an untyped transmission and a new-aircraft marker. |
| `Aggregation.ApplyIdempotent` | src/main/java/org/codebrewer/dump1090processor/basestation/integration/BaseStationMessageEndpoint.java:105-166 | For every table and every message, consuming the message twice leaves the same store as consuming it once. An overflowing sighting fails both times and changes nothing. |
| `Aggregation.OtherAddressesLeaveRowAlone` | src/main/java/org/codebrewer/dump1090processor/basestation/integration/BaseStationMessageEndpoint.java:114-128 | A stream with no message for an address leaves that address's row as it was, and leaves it absent if it was absent. |
| `Aggregation.ApplyAllNeverDeletes` | src/main/java/org/codebrewer/dump1090processor/basestation/integration/BaseStationMessageEndpoint.java:94-169 | No stream removes a row, so stale aircraft stay in the store. |
| `Aggregation.ApplyAllKeepsKeying` | src/main/java/org/codebrewer/dump1090processor/basestation/entity/Aircraft.java:9-10 | After any stream, every row is stored under its own address: one aircraft per address. |
| `Aggregation.OnlySightingsCreateRows` | src/main/java/org/codebrewer/dump1090processor/basestation/integration/BaseStationMessageEndpoint.java:136-166 | A stream with no position sighting of an address never creates a row for that address, even when it holds identity updates for it. |
| `Aggregation.LaterSightingWins` | src/main/java/org/codebrewer/dump1090processor/basestation/integration/BaseStationMessageEndpoint.java:114-128 | Take two sightings of one address, with other addresses' messages in between. The second sighting's position and `tov` remain. |
| `Aggregation.SightingThenIdentity` | src/main/java/org/codebrewer/dump1090processor/basestation/integration/BaseStationMessageEndpoint.java:105-166 | A sighting followed by an identity update with a usable call sign leaves a row with the sighting's position and that call sign. |
| `Aggregation.SightingIsLive` | src/main/java/org/codebrewer/dump1090processor/basestation/repository/AircraftRepository.java:13 | After a sighting whose `tov` is past the cut-off, the aircraft is returned by the staleness query. A stale row is updated in place and no second row is added. |
| `Integration.BaseStationMessageEndpoint.constructor` | src/main/java/org/codebrewer/dump1090processor/basestation/integration/BaseStationMessageEndpoint.java:74-80 | The flag argument is the initial persistence setting. Nothing is logged yet. |
| `Integration.BaseStationMessageEndpoint.IsPersistMessages` | src/main/java/org/codebrewer/dump1090processor/basestation/integration/BaseStationMessageEndpoint.java:179-181 | Returns the current persistence setting. |
| `Integration.BaseStationMessageEndpoint.SetPersistMessages` | src/main/java/org/codebrewer/dump1090processor/basestation/integration/BaseStationMessageEndpoint.java:191-194 | Afterwards the setting is the given value. |
| `Integration.BaseStationMessageEndpoint.Consume` | src/main/java/org/codebrewer/dump1090processor/basestation/integration/BaseStationMessageEndpoint.java:94-169 | With persistence off, nothing is logged and the store is unchanged. With it on, the message is logged exactly once, whatever its variant, and the store becomes `ApplyMessage` of the old store. On overflow the message is already logged, the error is returned and the store is unchanged. |
| `Integration.BaseStationMessageEndpoint.RecordCallSign` | src/main/java/org/codebrewer/dump1090processor/basestation/integration/BaseStationMessageEndpoint.java:136-147 | Looks up the row and saves the new call sign only when the row exists and the call sign is non-null and non-empty. |

## Left out

- The CSV message parser, the payload transformer with its valid/invalid counters, and the empty-payload filter are not part of this model; their sources are not among the modelled files.
- `BaseStationController` is not part of this model: it copies `findAll()` into a list and applies no staleness filter.
- The message repository's storage backend: saving a message is modelled as appending to a ghost log, `messageLog`.
- Logging, the `toString` methods, and the Spring, JMX and JPA annotations and wiring.
- The `volatile` qualifier on `persistMessages`: it concerns visibility across threads, and the model is sequential.
- Concurrent consumers: each `consume` call is modelled as one atomic step, and streams are applied in order.
- Floating point: latitude, longitude, altitude, ground speed and track are `real` values that are copied, never computed with. Rounding and NaN are not modelled.
- Getters: the fields of the `Aircraft` class and the destructors of `Message` are read directly. Each setter's contract says its own field now holds the new value.
- The status, selection-change and click variants of `BaseStationMessage` are not in the modelled source files. They would take the same no-op branch as `NewAircraft`.
- The JPA persistence context: `FindById` returns a new detached entity, so a change reaches the store only through `Save`. In `consume` every change is followed by a save, so an entity shared with the persistence context would give the same store.
- Repository.AircraftRepository.Save: requires a non-null identifier. JPA rejects a null assigned identifier with an exception, and `consume` never passes one.
