# fluent-plugin-influxdb: the `write` loop of `Fluent::InfluxdbOutput`

This project models how the Fluentd InfluxDB output plugin turns one buffered
chunk of `(tag, time, record)` events into the bulk list it posts to InfluxDB's
`/db/<dbname>/series` endpoint. Each record is a Ruby Hash, so it keeps its keys
in insertion order. Before the bulk entry is built, the record's time field is
normalised:

- the record's own `time_key` value is read, and parsed with `DateTime.parse`
  when it is a String;
- it is shifted into `time_zone` when one is configured, then replaced by the
  event time when `include_time_key` is set (the zone step still runs, and can
  raise, under `include_time_key`);
- a truthy result is written back under `time_key` as epoch seconds (a Float);
- when `time_key` equals `influx_time_key`, a record that still lacks the key
  gets the event time appended.

Each event then becomes `{name: tag, columns: record.keys, points: [record.values]}`.
Any record whose normalisation raises aborts the whole write.

Files:

- `wrappers.dfy`: the `Option` and `Result` types.
- `ruby_hash.dfy`: Ruby values, Ruby truthiness and the insertion-ordered Hash.
  A Hash is a sequence of pairs with distinct keys. `Get` is `hash[k]`. `Put`
  is `hash[k] = v`: it updates in place or appends. `ToMap` is the reference
  map reading of a Hash.
- `settings.dfy`: the configuration parameters `write` reads, and their defaults.
- `time_key.dfy`: the time normalisation (`Normalize`) and its properties.
- `bulk.dfy`: bulk entries, their inverse, the chunk loop as a recursive
  function (`Write`) and as the plugin's imperative loop (`WriteChunk`).
- `request.dfy`: the request path.

The time library is a parameter, `TimeLib<M>`. It holds partial functions over
the library's own time objects `M`: `parse` stands for `DateTime.parse`,
`inZone` for the TZInfo shift, and `epochSeconds` for `strftime("%s")`. A
result of `None` means the call raises.

Two Ruby details shape the model:

- Only `nil` and `false` are falsy. The event time is an Integer, so
  `time || record_time` is always `time`.
- Calling `strftime` on a record value that is not a time (an Integer, a Float
  or `true`) raises NoMethodError. The model has this error path too.

The comment at line 63 says the `time` field should be a Float, but line 65
stores the Integer event time. So under the defaults one chunk can post an
Integer `time` for a record that had none and a Float `time` for a record whose
`time` string parsed. The model keeps this as written: TimeKey.AbsentTimeKeyGetsEventTime
appends `Int(time)`, and Bulk.DefaultsMixTimeColumnTypes shows both types in one chunk.

The branch for `time_key != influx_time_key` (lines 66-68) uses the boolean
`include_time_key` itself as a hash key. It is modelled as written: Hash keys
are arbitrary Ruby values, and that branch stores under `Bool(include_time_key)`.

The repository's later plugin class handles tag keys, sequence tags,
retention-policy grouping and measurement overrides. Its source is not part of
this model. The model follows the shown `write` loop instead.

## Model

| member | source | states |
|---|---|---|
| RubyHash.HasKey | lib/fluent/plugin/out_influxdb.rb:65 | `has_key?`: the key is among the record's keys; its agreement with the map reading is stated in RubyHash.GetMatchesMap |
| RubyHash.Get | lib/fluent/plugin/out_influxdb.rb:48 | `record[k]` is the value stored under `k`, and `nil` when the record has no such key |
| RubyHash.Put | lib/fluent/plugin/out_influxdb.rb:61 | `record[k] = v` keeps an existing key in its position with the new value and leaves every other entry alone; a new key is appended last; the result is still a Hash (distinct keys) |
| RubyHash.GetMatchesMap | lib/fluent/plugin/out_influxdb.rb:65 | `has_key?` and lookup agree with the record read as a finite map, with absent keys giving `nil` |
| RubyHash.PutMatchesMapUpdate | lib/fluent/plugin/out_influxdb.rb:65 | ordering aside, assigning into the record is map update `m[k := v]` |
| RubyHash.PutTouchesOnlyItsKey | lib/fluent/plugin/out_influxdb.rb:61-68 | assigning to a time key leaves the entries of all other keys, and their order, unchanged |
| TimeKey.ReadRecordTime | lib/fluent/plugin/out_influxdb.rb:48-49 | reads `record[time_key]` and parses it when it is a truthy String, raising when the parse fails; its properties are stated in the TimeKey lemmas below |
| TimeKey.ShiftZone | lib/fluent/plugin/out_influxdb.rb:51-59 | with a non-empty `time_zone`, shifts whatever `record_time` holds through the time library, raising when the library does; its properties are stated in the TimeKey lemmas below |
| TimeKey.ChooseTime | lib/fluent/plugin/out_influxdb.rb:60 | under include_time_key `record_time` becomes `Time.at(time)`; the event time is an Integer, so `time \|\| record_time` is always `time`; its properties are stated in TimeKey.EventTimeTakesPrecedence |
| TimeKey.EpochSeconds | lib/fluent/plugin/out_influxdb.rb:61 | `strftime("%s").to_f`: a library time gives the Float of its whole epoch seconds, `Time.at(t)` gives `Float(t)` without the library, and a raw record value (a number, `true`) has no `strftime` and raises; its properties are stated in TimeKey.RawTimeRaises and TimeKey.EventTimeTakesPrecedence |
| TimeKey.WrittenTime | lib/fluent/plugin/out_influxdb.rb:61 | the epoch seconds written under the time key when `record_time` is truthy, nothing when it is nil or false; its properties are stated in TimeKey.FalsyTimeLeftAlone and TimeKey.ParsedTimeBecomesEpochSeconds |
| TimeKey.FillTimeKey | lib/fluent/plugin/out_influxdb.rb:64-68 | the branch on equal time keys: event time only when the key is still absent, otherwise the literal boolean-key branch; its properties are stated in the TimeKey lemmas below |
| TimeKey.Normalize | lib/fluent/plugin/out_influxdb.rb:48-68 | the whole per-record time normalisation, raising as the loop does; its properties are stated in the TimeKey lemmas below |
| TimeKey.NormalizeTouchesOnlyTimeKeys | lib/fluent/plugin/out_influxdb.rb:61-68 | after normalisation no key is removed, no key except the time key(s) is added or changed, untouched keys keep their order, and added keys come after the record's own |
| TimeKey.AbsentTimeKeyGetsEventTime | lib/fluent/plugin/out_influxdb.rb:48-65 | with equal time keys, no include_time_key and no time zone, a record without the time key gets the event time as an Integer appended as its last column |
| TimeKey.ExistingTimeKeyKeepsPlace | lib/fluent/plugin/out_influxdb.rb:61-65 | with equal time keys, a record that already has the time key never gets the Integer event time stored over it or appended (line 65): same columns in the same order, other entries unchanged, the time value kept or replaced by a Float of epoch seconds (under include_time_key, the event time's) |
| TimeKey.ParsedTimeBecomesEpochSeconds | lib/fluent/plugin/out_influxdb.rb:48-61 | with equal time keys, no `time_zone` and no include_time_key, a time string the library parses is replaced, in place, by the Float epoch seconds of the parsed time (with a zone it is the shifted time, with include_time_key the event time) |
| TimeKey.FalsyTimeLeftAlone | lib/fluent/plugin/out_influxdb.rb:48-65 | with equal time keys, no `time_zone` and no include_time_key, a time key holding `nil` or `false` is left as it is: neither converted nor filled with the event time (under include_time_key it gets the event time's epoch seconds, see TimeKey.EventTimeTakesPrecedence) |
| TimeKey.UnparsableTimeRaises | lib/fluent/plugin/out_influxdb.rb:49 | a time string `DateTime.parse` rejects makes the record raise, under every configuration |
| TimeKey.RawTimeRaises | lib/fluent/plugin/out_influxdb.rb:48-61 | without a time zone or include_time_key, a truthy non-String time value reaches `strftime` unconverted and raises |
| TimeKey.EventTimeTakesPrecedence | lib/fluent/plugin/out_influxdb.rb:60-61 | with equal time keys and include_time_key, the record succeeds exactly when reading its own time does not raise, and the time key then holds the event time's epoch seconds whatever the record had |
| TimeKey.MismatchedKeysAddFlagColumn | lib/fluent/plugin/out_influxdb.rb:66-68 | with differing time keys the result always has the boolean include_time_key as a key with a truthy value; under include_time_key it and the time key both hold the event time's epoch seconds |
| Bulk.EntryOf | lib/fluent/plugin/out_influxdb.rb:71-75 | an entry is named by the tag, has one row, as many columns as row values, and position i pairs the record's i-th key with its own value |
| Bulk.Zip | lib/fluent/plugin/out_influxdb.rb:73-74 | pairs `columns` with the row position by position; taking the keys and values of the result gives back exactly the columns and the row |
| Bulk.EntryRoundTrip | lib/fluent/plugin/out_influxdb.rb:73-74 | reading an entry's columns and row back gives the record again |
| Bulk.RecordRoundTrip | lib/fluent/plugin/out_influxdb.rb:73-74 | every entry that reads back as a record is exactly that record's entry |
| Bulk.Write | lib/fluent/plugin/out_influxdb.rb:44-76 | the bulk list exists exactly when no record raises; it then has one entry per event, in chunk order, named by the event's tag and built from its normalised record; otherwise the error is that of the first record that raises |
| Bulk.WriteChunk | lib/fluent/plugin/out_influxdb.rb:45-76 | the appending loop, stopping at the first raise, computes the same result as `Write` |
| Bulk.DefaultsAppendEventTime | lib/fluent/plugin/out_influxdb.rb:64-74 | under the default configuration a chunk whose records lack `time` always yields entries whose columns are the record's keys then `time` and whose row is the record's values then the event time |
| Bulk.DefaultsMixTimeColumnTypes | lib/fluent/plugin/out_influxdb.rb:61-65 | under the defaults one chunk can post an Integer `time` (a record without `time`) and a Float `time` (a record whose `time` string parses) in the same column |
| Request.SeriesPath | lib/fluent/plugin/out_influxdb.rb:79 | the path has `/db/`, dbname, `/series?u=`, user, `&p=`, password, `&time_precision=`, precision at fixed offsets, each value verbatim |
| Request.DefaultSeriesPath | lib/fluent/plugin/out_influxdb.rb:79 | under the defaults the path is `/db/fluentd/series?u=root&p=root&time_precision=s` |
| Request.SeriesPathUnescaped | lib/fluent/plugin/out_influxdb.rb:79 | with no escaping, two different user/password pairs give the same path |

## Left out

- `DateTime.parse`, the TZInfo lookup and shift, and `strftime("%s")` (lines 49-59, 61, 67) are foreign library calls. They are the `TimeLib` parameter. Which inputs they accept or reject is not modelled.
- Floats are modelled as exact reals. `Float(t)` of an event time is exact only below 2^53 in Ruby.
- `format`'s msgpack encoding (line 37) and `chunk.msgpack_each` (line 47) are foreign encoding. A chunk is an already decoded sequence of events.
- Record values are scalars (nil, booleans, integers, floats, strings). Nested arrays and hashes in records are not modelled.
- `Net::HTTP`, the POST request, its header, the Yajl JSON encoding of the bulk list and the `.value` check of the response (lines 78-81) are network I/O and a foreign encoder. Only the request path is modelled.
- Configuration parsing, `initialize`, `configure`, `start` and `shutdown` (lines 3-34, 40-42) are lifecycle plumbing. `Config` holds the values `write` reads, with their defaults. `host` and `port` are used only to open the HTTP connection, so `Config` leaves them out.
- `Fluent::SetTimeKeyMixin` is included at line 6. Its record filter runs on the format path, and its code is not part of this model.
- The event time is an Integer (seconds), as the buffer delivers it. A `nil` event time is not modelled.
- TimeKey.ExistingTimeKeyKeepsPlace: says only that the new time value is a Float. The exact value is in TimeKey.ParsedTimeBecomesEpochSeconds and TimeKey.EventTimeTakesPrecedence, because a configured time zone makes the value depend on the library.
