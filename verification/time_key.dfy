/**
  The per-record time normalisation at the top of the `write` loop: the record's
  own time field is read, parsed when it is a string, optionally shifted into a
  time zone or replaced by the event time, written back as epoch seconds, and the
  event time is filled in when the record had no time field at all.

  The time library (DateTime.parse, TZInfo and `strftime("%s")`) is a parameter:
  `TimeLib<M>` gives its calls as partial functions over the library's own time
  objects `M`, where `None` means the call raises.
 */
module TimeKey {
  import opened Wrappers
  import opened RubyHash
  import opened Settings

  /** Why `write` raises while normalising a record. */
  datatype WriteError =
    | UnparsableTime(text: string)        // DateTime.parse rejected the record's time string
    | ZoneShiftFailed(zone: string)       // TZInfo could not shift the value into the zone
    | NoStrftime(receiver: Value)         // `strftime` sent to a record value that is not a time

  /** What the local `record_time` holds. */
  datatype RecordTime<M> =
    | Raw(v: Value)   // the record's own value when it is not a String (nil, a boolean, a number)
    | Obj(m: M)       // a time object produced by the library
    | At(t: int)      // `Time.at(time)` of the event time

  /** The foreign time library, as the calls `write` makes into it. */
  datatype TimeLib<!M> = TimeLib(
    parse: string -> Option<M>,                   // DateTime.parse
    inZone: (string, RecordTime<M>) -> Option<M>, // the TZInfo period lookup and offset shift
    epochSeconds: M -> int)                       // strftime("%s") of a library time object

  /** `record_time` is truthy unless it holds the record's nil or false. */
  predicate IsSet<M>(rt: RecordTime<M>) {
    !rt.Raw? || Truthy(rt.v)
  }

  /** The record's own time, parsed when it is a String. */
  function ReadRecordTime<M>(cfg: Config, lib: TimeLib<M>, record: Hash): Result<RecordTime<M>, WriteError> {
    var v := Get(record, Str(cfg.timeKey));
    if Truthy(v) && v.Str? then
      match lib.parse(v.s)
      case Some(m) => Success(Obj(m))
      case None => Failure(UnparsableTime(v.s))
    else
      Success(Raw(v))
  }

  /** The time-zone shift, applied whenever a zone is configured, whatever `record_time` holds. */
  function ShiftZone<M>(cfg: Config, lib: TimeLib<M>, rt: RecordTime<M>): Result<RecordTime<M>, WriteError> {
    if cfg.timeZone != "" then
      match lib.inZone(cfg.timeZone, rt)
      case Some(m) => Success(Obj(m))
      case None => Failure(ZoneShiftFailed(cfg.timeZone))
    else
      Success(rt)
  }

  /** `record_time` after the include_time_key step; the event time is an Integer, hence always truthy. */
  function ChooseTime<M>(cfg: Config, time: int, rt: RecordTime<M>): RecordTime<M> {
    if cfg.includeTimeKey then At(time) else rt
  }

  /** `record_time.strftime("%s").to_f`: whole epoch seconds as a Float; a raw record value has no strftime. */
  function EpochSeconds<M>(lib: TimeLib<M>, rt: RecordTime<M>): Result<Value, WriteError> {
    match rt
    case Raw(v) => Failure(NoStrftime(v))
    case Obj(m) => Success(Float(lib.epochSeconds(m) as real))
    case At(t) => Success(Float(t as real))
  }

  /** The value written under the time key, or None when `record_time` is falsy and nothing is written. */
  function WrittenTime<M>(lib: TimeLib<M>, rt: RecordTime<M>): Result<Option<Value>, WriteError> {
    if IsSet(rt) then
      var e :- EpochSeconds(lib, rt);
      Success(Some(e))
    else
      Success(None)
  }

  /**
    The branch on `time_key == influx_time_key`. When they agree the event time is
    stored only if the record still has no time key. Otherwise the code uses the
    boolean `include_time_key` itself as a hash key: it receives the written time,
    and the event time when it is still falsy.
   */
  function FillTimeKey(cfg: Config, time: int, written: Option<Value>, record: Hash): Hash {
    if cfg.timeKey == cfg.influxTimeKey then
      if HasKey(record, Str(cfg.timeKey)) then record else Put(record, Str(cfg.timeKey), Int(time))
    else
      var flag := Bool(cfg.includeTimeKey);
      var flagged := match written case Some(e) => Put(record, flag, e) case None => record;
      if Truthy(Get(flagged, flag)) then flagged else Put(flagged, flag, Int(time))
  }

  /** The record after the whole time normalisation, or the error the loop raises on it. */
  function Normalize<M>(cfg: Config, lib: TimeLib<M>, time: int, record: Hash): Result<Hash, WriteError> {
    var parsed :- ReadRecordTime(cfg, lib, record);
    var zoned :- ShiftZone(cfg, lib, parsed);
    var rt := ChooseTime(cfg, time, zoned);
    var written :- WrittenTime(lib, rt);
    var stamped := match written case Some(e) => Put(record, Str(cfg.timeKey), e) case None => record;
    Success(FillTimeKey(cfg, time, written, stamped))
  }

  /** The keys normalisation may write: the time key, and in the mismatched-key branch the boolean flag key. */
  function TouchedKeys(cfg: Config): set<Value> {
    if cfg.timeKey == cfg.influxTimeKey then {Str(cfg.timeKey)} else {Str(cfg.timeKey), Bool(cfg.includeTimeKey)}
  }

  /** `after` is `before` with only keys of `touched` written: entries kept in place, new keys appended. */
  ghost predicate OnlyTouched(before: Hash, after: Hash, touched: set<Value>) {
    && Without(after, touched) == Without(before, touched)
    && |before| <= |after|
    && (forall i :: 0 <= i < |before| ==> after[i].0 == before[i].0)
    && (forall i :: |before| <= i < |after| ==> after[i].0 in touched)
  }

  /** One assignment to a touched key writes only that key. */
  lemma {:induction false} PutIsOnlyTouched(h: Hash, k: Value, v: Value, touched: set<Value>)
    requires k in touched
    ensures OnlyTouched(h, Put(h, k, v), touched)
  {
    PutTouchesOnlyItsKey(h, k, v, touched);
  }

  /** Writing only touched keys twice still writes only touched keys. */
  lemma {:induction false} OnlyTouchedTrans(a: Hash, b: Hash, c: Hash, touched: set<Value>)
    requires OnlyTouched(a, b, touched) && OnlyTouched(b, c, touched)
    ensures OnlyTouched(a, c, touched)
  {
  }

  /**
    Nothing else changes: every key outside the time key(s) keeps its value and
    its relative order, no key is removed, and any key added is a time key
    appended after the record's own entries.
   */
  lemma {:induction false} NormalizeTouchesOnlyTimeKeys<M>(cfg: Config, lib: TimeLib<M>, time: int, record: Hash)
    requires Normalize(cfg, lib, time, record).Success?
    ensures OnlyTouched(record, Normalize(cfg, lib, time, record).value, TouchedKeys(cfg))
  {
    var touched := TouchedKeys(cfg);
    var rt := ChooseTime(cfg, time, ShiftZone(cfg, lib, ReadRecordTime(cfg, lib, record).value).value);
    var written := WrittenTime(lib, rt).value;
    var stamped := match written case Some(e) => Put(record, Str(cfg.timeKey), e) case None => record;
    if written.Some? {
      PutIsOnlyTouched(record, Str(cfg.timeKey), written.value, touched);
    }
    assert OnlyTouched(record, stamped, touched);
    var result := FillTimeKey(cfg, time, written, stamped);
    if cfg.timeKey == cfg.influxTimeKey {
      if !HasKey(stamped, Str(cfg.timeKey)) {
        PutIsOnlyTouched(stamped, Str(cfg.timeKey), Int(time), touched);
      }
    } else {
      var flag := Bool(cfg.includeTimeKey);
      var flagged := match written case Some(e) => Put(stamped, flag, e) case None => stamped;
      if written.Some? {
        PutIsOnlyTouched(stamped, flag, written.value, touched);
      }
      if !Truthy(Get(flagged, flag)) {
        PutIsOnlyTouched(flagged, flag, Int(time), touched);
        OnlyTouchedTrans(stamped, flagged, result, touched);
      }
    }
    OnlyTouchedTrans(record, stamped, result, touched);
  }

  /**
    With the time key and the InfluxDB time key equal, no include_time_key and no
    time zone (the defaults), a record without the time key gets the event time,
    as an Integer, appended as its last column.
   */
  lemma {:induction false} AbsentTimeKeyGetsEventTime<M>(cfg: Config, lib: TimeLib<M>, time: int, record: Hash)
    requires cfg.timeKey == cfg.influxTimeKey && !cfg.includeTimeKey && cfg.timeZone == ""
    requires !HasKey(record, Str(cfg.timeKey))
    ensures Normalize(cfg, lib, time, record) == Success(record + [(Str(cfg.timeKey), Int(time))])
  {
  }

  /**
    When the record already has the time key (and the two time keys agree), the
    event time is never stored over it: the columns stay the same and in the same
    order, every other entry is unchanged, and the time entry either keeps its value
    or holds the epoch seconds the time library produced, a Float.
   */
  lemma {:induction false} ExistingTimeKeyKeepsPlace<M>(cfg: Config, lib: TimeLib<M>, time: int, record: Hash)
    requires cfg.timeKey == cfg.influxTimeKey
    requires HasKey(record, Str(cfg.timeKey))
    requires Normalize(cfg, lib, time, record).Success?
    ensures var after := Normalize(cfg, lib, time, record).value;
      && Keys(after) == Keys(record)
      && (forall i :: 0 <= i < |record| && record[i].0 != Str(cfg.timeKey) ==> after[i] == record[i])
      && (Get(after, Str(cfg.timeKey)) == Get(record, Str(cfg.timeKey)) || Get(after, Str(cfg.timeKey)).Float?)
  {
  }

  /**
    With equal time keys, no include_time_key and no time zone, a time string the
    library parses is replaced, in its own position, by its epoch seconds.
   */
  lemma {:induction false} ParsedTimeBecomesEpochSeconds<M>(cfg: Config, lib: TimeLib<M>, time: int, record: Hash, s: string, m: M)
    requires cfg.timeKey == cfg.influxTimeKey && !cfg.includeTimeKey && cfg.timeZone == ""
    requires Get(record, Str(cfg.timeKey)) == Str(s) && lib.parse(s) == Some(m)
    ensures Normalize(cfg, lib, time, record) == Success(Put(record, Str(cfg.timeKey), Float(lib.epochSeconds(m) as real)))
  {
  }

  /**
    With equal time keys, no include_time_key and no time zone, a time key holding
    nil or false is left exactly as it is: no conversion, no event time.
   */
  lemma {:induction false} FalsyTimeLeftAlone<M>(cfg: Config, lib: TimeLib<M>, time: int, record: Hash)
    requires cfg.timeKey == cfg.influxTimeKey && !cfg.includeTimeKey && cfg.timeZone == ""
    requires HasKey(record, Str(cfg.timeKey)) && !Truthy(Get(record, Str(cfg.timeKey)))
    ensures Normalize(cfg, lib, time, record) == Success(record)
  {
  }

  /** A time string the library cannot parse makes the loop raise, whatever the configuration. */
  lemma {:induction false} UnparsableTimeRaises<M>(cfg: Config, lib: TimeLib<M>, time: int, record: Hash, s: string)
    requires Get(record, Str(cfg.timeKey)) == Str(s) && lib.parse(s) == None
    ensures Normalize(cfg, lib, time, record) == Failure(UnparsableTime(s))
  {
  }

  /**
    A truthy time that is not a String (a number, true) reaches `strftime` unconverted
    when neither a zone nor include_time_key intervenes, and the loop raises.
   */
  lemma {:induction false} RawTimeRaises<M>(cfg: Config, lib: TimeLib<M>, time: int, record: Hash)
    requires !cfg.includeTimeKey && cfg.timeZone == ""
    requires Truthy(Get(record, Str(cfg.timeKey))) && !Get(record, Str(cfg.timeKey)).Str?
    ensures Normalize(cfg, lib, time, record) == Failure(NoStrftime(Get(record, Str(cfg.timeKey))))
  {
  }

  /** Reading and zone-shifting the record's own time, the steps that run even under include_time_key. */
  predicate RecordTimeReadable<M>(cfg: Config, lib: TimeLib<M>, record: Hash) {
    var parsed := ReadRecordTime(cfg, lib, record);
    parsed.Success? && ShiftZone(cfg, lib, parsed.value).Success?
  }

  /**
    With equal time keys and include_time_key, the event time takes precedence: whenever reading the
    record's own time does not raise, the time key is set to the event time's
    epoch seconds, whatever the record held there.
   */
  lemma {:induction false} EventTimeTakesPrecedence<M>(cfg: Config, lib: TimeLib<M>, time: int, record: Hash)
    requires cfg.includeTimeKey && cfg.timeKey == cfg.influxTimeKey
    ensures Normalize(cfg, lib, time, record).Success? <==> RecordTimeReadable(cfg, lib, record)
    ensures Normalize(cfg, lib, time, record).Success? ==>
      Normalize(cfg, lib, time, record).value == Put(record, Str(cfg.timeKey), Float(time as real))
  {
  }

  /**
    With differing time keys the code stores under the boolean include_time_key:
    the result always has that boolean key with a truthy value, and under
    include_time_key both it and the time key hold the event time's epoch seconds.
   */
  lemma {:induction false} MismatchedKeysAddFlagColumn<M>(cfg: Config, lib: TimeLib<M>, time: int, record: Hash)
    requires cfg.timeKey != cfg.influxTimeKey
    requires Normalize(cfg, lib, time, record).Success?
    ensures var after := Normalize(cfg, lib, time, record).value;
      && HasKey(after, Bool(cfg.includeTimeKey))
      && Truthy(Get(after, Bool(cfg.includeTimeKey)))
      && (cfg.includeTimeKey ==>
            Get(after, Bool(true)) == Float(time as real) && Get(after, Str(cfg.timeKey)) == Float(time as real))
  {
    var k := Str(cfg.timeKey);
    var flag := Bool(cfg.includeTimeKey);
    var rt := ChooseTime(cfg, time, ShiftZone(cfg, lib, ReadRecordTime(cfg, lib, record).value).value);
    var written := WrittenTime(lib, rt).value;
    var stamped := match written case Some(e) => Put(record, k, e) case None => record;
    var flagged := match written case Some(e) => Put(stamped, flag, e) case None => stamped;
    GetMatchesMap(flagged, flag);
    if written.Some? {
      PutMatchesMapUpdate(record, k, written.value);
      PutMatchesMapUpdate(stamped, flag, written.value);
      GetMatchesMap(stamped, k);
    }
    if !Truthy(Get(flagged, flag)) {
      var after := Put(flagged, flag, Int(time));
      PutMatchesMapUpdate(flagged, flag, Int(time));
      GetMatchesMap(after, flag);
    } else {
      GetMatchesMap(flagged, k);
    }
  }
}
