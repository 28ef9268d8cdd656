/**
 * `BaseStationMessageEndpoint`: consumes one parsed message at a time. With persistence on,
 * it logs the message and folds it into the aircraft store; with persistence off, it does
 * neither. The flag can be read and changed at run time.
 */
module Integration {
  import opened Wrappers
  import opened Primitives
  import opened Messages
  import opened AircraftEntity
  import opened Repository
  import opened Aggregation

  class BaseStationMessageEndpoint {
    /** The messages saved to the message repository, oldest first. */
    ghost var messageLog: seq<Message>
    const aircraftRepository: AircraftRepository
    var persistMessages: bool

    ghost predicate Valid()
      reads this, aircraftRepository
    {
      aircraftRepository.Valid()
    }

    /** The flag argument is the initial persistence setting; nothing has been saved yet. */
    constructor (aircraftRepository: AircraftRepository, persistMessages: bool)
      requires aircraftRepository.Valid()
      ensures Valid()
      ensures this.aircraftRepository == aircraftRepository && this.persistMessages == persistMessages
      ensures messageLog == []
    {
      this.aircraftRepository := aircraftRepository;
      this.persistMessages := persistMessages;
      messageLog := [];
    }

    method IsPersistMessages() returns (b: bool)
      ensures b == persistMessages
    {
      b := persistMessages;
    }

    method SetPersistMessages(persistMessages: bool)
      modifies this`persistMessages
      ensures this.persistMessages == persistMessages
    {
      this.persistMessages := persistMessages;
    }

    /**
     * `consume`. With persistence off nothing is saved and the store is untouched. With it on,
     * the message is saved once, whatever its variant, and the store becomes `ApplyMessage`
     * of the old store; when the timestamp overflows, the message has been saved already and
     * the store is untouched.
     */
    method Consume(m: Message) returns (outcome: Outcome<ConsumeError>)
      requires Valid()
      modifies this`messageLog, aircraftRepository
      ensures Valid()
      ensures !persistMessages ==>
        && outcome == Pass
        && messageLog == old(messageLog)
        && aircraftRepository.rows == old(aircraftRepository.rows)
      ensures persistMessages ==>
        && messageLog == old(messageLog) + [m]
        && match ApplyMessage(old(aircraftRepository.rows), m)
           case Success(t) => outcome == Pass && aircraftRepository.rows == t
           case Failure(e) => outcome == Fail(e) && aircraftRepository.rows == old(aircraftRepository.rows)
    {
      outcome := Pass;
      if persistMessages {
        messageLog := messageLog + [m];
        match m
        case Transmission(icaoAddress, timestamp, callSign, transmissionType, _, _, _, position, _, _, _, _, _, _) =>
          if transmissionType == Some(AIRBORNE_POSITION) {
            if position.Some? {
              var lat, lon := position.value.lat, position.value.lon;
              var tov := ToEpochMilli(timestamp);
              if tov.None? {
                return Fail(EpochMilliOverflow);
              }
              var found := aircraftRepository.FindById(icaoAddress);
              var aircraft: Aircraft;
              if found.Some? {
                aircraft := found.value;
                aircraft.SetLatitude(lat);
                aircraft.SetLongitude(lon);
                aircraft.SetTov(tov.value);
              } else {
                aircraft := new Aircraft(Some(icaoAddress), lat, lon, tov.value);
              }
              aircraftRepository.Save(aircraft);
            }
          } else if transmissionType == Some(SURVEILLANCE_ID) {
            RecordCallSign(icaoAddress, callSign);
          }
        case Id(icaoAddress, _, callSign) =>
          RecordCallSign(icaoAddress, callSign);
        case NewAircraft(_, _) =>
      }
    }

    /** The identity branch of `consume`, shared by surveillance-identity transmissions and identity messages. */
    method RecordCallSign(icaoAddress: string, callSign: Option<string>)
      requires Valid()
      modifies aircraftRepository
      ensures Valid()
      ensures aircraftRepository.rows == Identified(old(aircraftRepository.rows), icaoAddress, callSign)
    {
      var found := aircraftRepository.FindById(icaoAddress);
      if found.Some? {
        var aircraft := found.value;
        if callSign.Some? && |callSign.value| > 0 {
          aircraft.SetCallSign(callSign);
          aircraftRepository.Save(aircraft);
        }
      }
    }
  }

  /** Scenarios from the endpoint's unit tests: the flag decides whether a message is saved. */
  method PersistenceToggleScenario(m: Message, repository: AircraftRepository)
    requires repository.Valid()
    modifies repository
  {
    var endpoint := new BaseStationMessageEndpoint(repository, true);
    var on := endpoint.IsPersistMessages();
    assert on;
    endpoint.SetPersistMessages(false);
    on := endpoint.IsPersistMessages();
    assert !on;
    var before := repository.rows;
    var _ := endpoint.Consume(m);
    assert endpoint.messageLog == [] && repository.rows == before;
    endpoint.SetPersistMessages(true);
    var _ := endpoint.Consume(m);
    assert endpoint.messageLog == [m];
  }
}
