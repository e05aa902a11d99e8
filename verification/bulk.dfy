/**
  The `write` loop over a chunk: every `(tag, time, record)` event becomes one
  bulk entry `{name: tag, columns: record.keys, points: [record.values]}` built
  from the time-normalised record, in chunk order. A record whose normalisation
  raises aborts the whole write.
 */
module Bulk {
  import opened Wrappers
  import opened RubyHash
  import opened Settings
  import opened TimeKey

  /** One decoded buffer event. */
  datatype Event = Event(tag: string, time: int, record: Hash)

  /** One element of the bulk list posted to InfluxDB. */
  datatype Entry = Entry(name: string, columns: seq<Value>, points: seq<seq<Value>>)

  /** The bulk entry of a normalised record: position i pairs the i-th key with its own value. */
  function EntryOf(tag: string, record: Hash): (e: Entry)
    ensures e.name == tag
    ensures |e.points| == 1 && |e.columns| == |e.points[0]| == |record|
    ensures forall i :: 0 <= i < |record| ==> (e.columns[i], e.points[0][i]) == record[i]
  {
    Entry(tag, Keys(record), [Values(record)])
  }

  /** Pairs keys with values position by position: splitting the result gives both back. */
  function Zip(ks: seq<Value>, vs: seq<Value>): (s: seq<Pair>)
    requires |ks| == |vs|
    ensures |s| == |ks|
    ensures Keys(s) == ks && Values(s) == vs
  {
    if |ks| == 0 then []
    else
      var rest := Zip(ks[1..], vs[1..]);
      var s := [(ks[0], vs[0])] + rest;
      assert s[1..] == rest;
      assert Keys(s) == [ks[0]] + Keys(rest);
      assert Values(s) == [vs[0]] + Values(rest);
      s
  }

  /** Reads a bulk entry back as a record: the inverse of `EntryOf` on well-formed entries. */
  function RecordOf(e: Entry): Option<Hash> {
    if |e.points| == 1 && |e.columns| == |e.points[0]| && DistinctKeys(Zip(e.columns, e.points[0])) then
      Some(Zip(e.columns, e.points[0]))
    else
      None
  }

  /** Pairing a record's keys with its values gives the record back. */
  lemma {:induction false} ZipKeysValues(s: seq<Pair>)
    ensures Zip(Keys(s), Values(s)) == s
  {
    if |s| > 0 {
      assert Keys(s)[1..] == Keys(s[1..]);
      assert Values(s)[1..] == Values(s[1..]);
      ZipKeysValues(s[1..]);
    }
  }

  /** A bulk entry carries exactly its record: reading it back gives the record again. */
  lemma EntryRoundTrip(tag: string, record: Hash)
    ensures RecordOf(EntryOf(tag, record)) == Some(record)
  {
    ZipKeysValues(record);
  }

  /** Conversely, every entry that reads back as a record is that record's entry. */
  lemma RecordRoundTrip(e: Entry)
    requires RecordOf(e).Some?
    ensures EntryOf(e.name, RecordOf(e).value) == e
  {
  }

  /**
    The bulk list of a chunk. It exists exactly when no record's normalisation
    raises; it then has one entry per event, in chunk order, built from the event's
    tag (its name, by `EntryOf`) and normalised record. Otherwise the error is that
    of the first record that raises.
   */
  function Write<M>(cfg: Config, lib: TimeLib<M>, chunk: seq<Event>): (r: Result<seq<Entry>, WriteError>)
    ensures r.Success? <==> forall i :: 0 <= i < |chunk| ==> Normalize(cfg, lib, chunk[i].time, chunk[i].record).Success?
    ensures r.Success? ==> |r.value| == |chunk|
    ensures r.Success? ==> forall i :: 0 <= i < |chunk| ==>
      r.value[i] == EntryOf(chunk[i].tag, Normalize(cfg, lib, chunk[i].time, chunk[i].record).value)
    ensures r.Failure? ==>
      exists i :: 0 <= i < |chunk| &&
        Normalize(cfg, lib, chunk[i].time, chunk[i].record) == Failure(r.error) &&
        (forall j :: 0 <= j < i ==> Normalize(cfg, lib, chunk[j].time, chunk[j].record).Success?)
  {
    if |chunk| == 0 then Success([])
    else
      var ev := chunk[0];
      match Normalize(cfg, lib, ev.time, ev.record)
      case Failure(e) => Failure(e)
      case Success(record) =>
        match Write(cfg, lib, chunk[1..])
        case Failure(e) =>
          assert forall i :: 1 <= i < |chunk| ==> chunk[1..][i - 1] == chunk[i];
          Failure(e)
        case Success(rest) =>
          assert forall i :: 1 <= i < |chunk| ==> chunk[1..][i - 1] == chunk[i];
          Success([EntryOf(ev.tag, record)] + rest)
  }

  /** The loop as the plugin runs it, appending to `bulk` and stopping at the first raise. */
  method WriteChunk<M>(cfg: Config, lib: TimeLib<M>, chunk: seq<Event>) returns (r: Result<seq<Entry>, WriteError>)
    ensures r == Write(cfg, lib, chunk)
  {
    var bulk: seq<Entry> := [];
    var i := 0;
    while i < |chunk|
      invariant 0 <= i <= |chunk|
      invariant |bulk| == i
      invariant forall j :: 0 <= j < i ==>
        Normalize(cfg, lib, chunk[j].time, chunk[j].record).Success? &&
        bulk[j] == EntryOf(chunk[j].tag, Normalize(cfg, lib, chunk[j].time, chunk[j].record).value)
    {
      var ev := chunk[i];
      var normalized := Normalize(cfg, lib, ev.time, ev.record);
      if normalized.Failure? {
        WriteStopsAtFirstFailure(cfg, lib, chunk, i);
        return Failure(normalized.error);
      }
      bulk := bulk + [EntryOf(ev.tag, normalized.value)];
      i := i + 1;
    }
    WriteCollectsAll(cfg, lib, chunk, bulk);
    return Success(bulk);
  }

  /** The first record that raises decides the error of the whole write. */
  lemma WriteStopsAtFirstFailure<M>(cfg: Config, lib: TimeLib<M>, chunk: seq<Event>, i: nat)
    requires i < |chunk| && Normalize(cfg, lib, chunk[i].time, chunk[i].record).Failure?
    requires forall j :: 0 <= j < i ==> Normalize(cfg, lib, chunk[j].time, chunk[j].record).Success?
    ensures Write(cfg, lib, chunk) == Failure(Normalize(cfg, lib, chunk[i].time, chunk[i].record).error)
  {
  }

  /** When every record normalises, the write posts exactly the entries collected in order. */
  lemma WriteCollectsAll<M>(cfg: Config, lib: TimeLib<M>, chunk: seq<Event>, bulk: seq<Entry>)
    requires |bulk| == |chunk|
    requires forall j :: 0 <= j < |chunk| ==>
      Normalize(cfg, lib, chunk[j].time, chunk[j].record).Success? &&
      bulk[j] == EntryOf(chunk[j].tag, Normalize(cfg, lib, chunk[j].time, chunk[j].record).value)
    ensures Write(cfg, lib, chunk) == Success(bulk)
  {
    var r := Write(cfg, lib, chunk);
    assert r.value == bulk;
  }

  /**
    Under the default configuration a chunk of records without a `time` field
    always posts: each entry lists the record's own columns followed by `time`,
    and its single row the record's values followed by the event time.
   */
  lemma {:induction false} DefaultsAppendEventTime<M>(lib: TimeLib<M>, chunk: seq<Event>)
    requires forall i :: 0 <= i < |chunk| ==> !HasKey(chunk[i].record, Str("time"))
    ensures Write(Defaults, lib, chunk).Success?
    ensures forall i :: 0 <= i < |chunk| ==>
      var e := Write(Defaults, lib, chunk).value[i];
      && e.name == chunk[i].tag
      && e.columns == Keys(chunk[i].record) + [Str("time")]
      && e.points == [Values(chunk[i].record) + [Int(chunk[i].time)]]
  {
    forall i | 0 <= i < |chunk|
      ensures Normalize(Defaults, lib, chunk[i].time, chunk[i].record) ==
        Success(chunk[i].record + [(Str("time"), Int(chunk[i].time))])
    {
      AbsentTimeKeyGetsEventTime(Defaults, lib, chunk[i].time, chunk[i].record);
    }
    forall i | 0 <= i < |chunk|
      ensures var e := Write(Defaults, lib, chunk).value[i];
        && e.name == chunk[i].tag
        && e.columns == Keys(chunk[i].record) + [Str("time")]
        && e.points == [Values(chunk[i].record) + [Int(chunk[i].time)]]
    {
      var ext: seq<Pair> := chunk[i].record + [(Str("time"), Int(chunk[i].time))];
      assert Keys(ext) == Keys(chunk[i].record) + [Str("time")];
      assert Values(ext) == Values(chunk[i].record) + [Int(chunk[i].time)];
    }
  }

  /**
    Under the default configuration one chunk can post both an Integer and a Float
    in its `time` column: a record without `time` gets the Integer event time, a
    record whose `time` string parses gets Float epoch seconds.
   */
  lemma {:induction false} DefaultsMixTimeColumnTypes<M>(lib: TimeLib<M>, tag: string, t1: int, t2: int, s: string, m: M)
    requires lib.parse(s) == Some(m)
    ensures var chunk := [Event(tag, t1, []), Event(tag, t2, [(Str("time"), Str(s))])];
      var r := Write(Defaults, lib, chunk);
      && r.Success? && |r.value| == 2
      && r.value[0].columns == [Str("time")] && r.value[0].points == [[Int(t1)]]
      && r.value[1].columns == [Str("time")] && r.value[1].points == [[Float(lib.epochSeconds(m) as real)]]
  {
    var chunk := [Event(tag, t1, []), Event(tag, t2, [(Str("time"), Str(s))])];
    AbsentTimeKeyGetsEventTime(Defaults, lib, t1, chunk[0].record);
    ParsedTimeBecomesEpochSeconds(Defaults, lib, t2, chunk[1].record, s, m);
    var e := Float(lib.epochSeconds(m) as real);
    var first: seq<Pair> := chunk[0].record + [(Str("time"), Int(t1))];
    assert Keys(first) == [Str("time")] && Values(first) == [Int(t1)];
    assert Keys(chunk[1].record) == [Str("time")];
    var second := Put(chunk[1].record, Str("time"), e);
    assert second == [(Str("time"), e)];
    assert Keys(second) == [Str("time")] && Values(second) == [e];
  }
}
