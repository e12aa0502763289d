/** Meter values (service/ocpp/meterValueService.js over model/ocpp/MeterValue.js): storing an
    OCPP MeterValues message as one flattened record, the filtered listing, and the energy and
    power figures derived from a transaction's or connector's readings. */
module MeterValues {
  import opened Common
  import opened OcppTypes
  import opened Collections

  /** A sampled value as the charger sends it; `None` is a field left out. */
  datatype RawSample = RawSample(
    value: Option<string>,
    context: Option<ReadingContext>,
    format: Option<ValueFormat>,
    measurand: Option<Measurand>,
    location: Option<MeterLocation>,
    unit: Option<UnitOfMeasure>,
    phase: Option<Phase>)

  /** One `meterValue` entry; `sampledValue` is `None` when it is missing or not an array. */
  datatype RawMeterValue = RawMeterValue(timestamp: int, sampledValue: Option<seq<RawSample>>)

  /** The MeterValues request; `meterValue` is `None` when it is missing or not an array.
      `timestamp` is a top-level timestamp read as an instant, `None` when the message has none
      or it is not a date (then `new Date(...)` is an invalid date). OCPP 1.6's MeterValues.req
      puts its timestamps on the `meterValue` entries and has no top-level one. */
  datatype MeterValuesRequest = MeterValuesRequest(
    connectorId: Option<int>, transactionId: Option<int>, timestamp: Option<int>, meterValue: Option<seq<RawMeterValue>>)

  /** A stored sampled value, with the defaults applied. */
  datatype Sample = Sample(
    value: string,
    context: ReadingContext,
    format: ValueFormat,
    measurand: Option<Measurand>,
    location: Option<MeterLocation>,
    unit: Option<UnitOfMeasure>,
    phase: Option<Phase>)

  /** A stored MeterValue document. */
  datatype MeterRecord = MeterRecord(
    id: nat,
    chargePointId: string,
    connectorId: int,
    transactionId: Option<int>,
    timestamp: int,
    samples: seq<Sample>)

  datatype MeterError = MeterValidationFailed

  /** What `parseFloat` makes of a sampled value's text. */
  datatype Reading = Num(x: real) | NaN

  // ---------------------------------------------------------------------------------------
  // Flattening

  /** One sampled value as pushed by `createMeterValueFromOCPP`: value defaults to "", context to
      Sample.Periodic and format to Raw; the other fields are copied as given. */
  function Normalize(sv: RawSample): (s: Sample)
    ensures s.value == sv.value.GetOr("") && s.context == sv.context.GetOr(SamplePeriodic)
            && s.format == sv.format.GetOr(Raw)
    ensures s.measurand == sv.measurand && s.location == sv.location && s.unit == sv.unit && s.phase == sv.phase
  {
    Sample(sv.value.GetOr(""), sv.context.GetOr(SamplePeriodic), sv.format.GetOr(Raw), sv.measurand, sv.location,
           sv.unit, sv.phase)
  }

  /** A stored sample, sent again as it was stored. */
  function AsRaw(s: Sample): RawSample
  {
    RawSample(Some(s.value), Some(s.context), Some(s.format), s.measurand, s.location, s.unit, s.phase)
  }

  /** Normalising keeps a sample that already has its defaults. */
  lemma NormalizeKeepsStoredSample(s: Sample)
    ensures Normalize(AsRaw(s)) == s
  {
  }

  /** The samples one entry contributes: none when its sampledValue is not an array. */
  function EntrySamples(mv: RawMeterValue): (r: seq<Sample>)
    ensures mv.sampledValue.None? ==> r == []
    ensures mv.sampledValue.Some? ==> |r| == |mv.sampledValue.value|
                                      && forall k :: 0 <= k < |r| ==> r[k] == Normalize(mv.sampledValue.value[k])
  {
    if mv.sampledValue.None? then []
    else seq(|mv.sampledValue.value|, k requires 0 <= k < |mv.sampledValue.value| => Normalize(mv.sampledValue.value[k]))
  }

  /** All entries' samples, entry after entry, each in its own order. */
  function Flatten(mvs: seq<RawMeterValue>): (r: seq<Sample>)
    ensures forall k :: 0 <= k < |r| ==> exists j :: 0 <= j < |mvs| && r[k] in EntrySamples(mvs[j])
    ensures forall j, x :: 0 <= j < |mvs| && x in EntrySamples(mvs[j]) ==> x in r
  {
    if mvs == [] then [] else Flatten(mvs[..|mvs| - 1]) + EntrySamples(mvs[|mvs| - 1])
  }

  /** Flattening one more entry appends that entry's samples. */
  lemma FlattenSnoc(mvs: seq<RawMeterValue>, mv: RawMeterValue)
    ensures Flatten(mvs + [mv]) == Flatten(mvs) + EntrySamples(mv)
  {
    assert (mvs + [mv])[..|mvs + [mv]| - 1] == mvs;
  }

  /** The loop step of flattening: one more entry of the message. */
  lemma FlattenStep(mvs: seq<RawMeterValue>, i: nat)
    requires i < |mvs|
    ensures Flatten(mvs[..i + 1]) == Flatten(mvs[..i]) + EntrySamples(mvs[i])
  {
    assert mvs[..i + 1] == mvs[..i] + [mvs[i]];
    FlattenSnoc(mvs[..i], mvs[i]);
  }

  /** Flattening keeps message order: the samples of a longer message extend those of its prefix. */
  lemma {:induction false} FlattenAppend(a: seq<RawMeterValue>, b: seq<RawMeterValue>)
    ensures Flatten(a + b) == Flatten(a) + Flatten(b)
  {
    if b == [] {
      assert a + b == a;
    } else {
      var init := b[..|b| - 1];
      var last := b[|b| - 1];
      assert b == init + [last];
      assert a + b == (a + init) + [last];
      FlattenSnoc(a + init, last);
      FlattenSnoc(init, last);
      FlattenAppend(a, init);
      AppendAssociative(Flatten(a), Flatten(init), EntrySamples(last));
    }
  }

  /** An entry without a sampledValue array contributes nothing. */
  lemma SkippedEntry(mvs: seq<RawMeterValue>, mv: RawMeterValue)
    requires mv.sampledValue.None?
    ensures Flatten(mvs + [mv]) == Flatten(mvs)
  {
    assert (mvs + [mv])[..|mvs + [mv]| - 1] == mvs;
  }

  /** The nested loops of `createMeterValueFromOCPP`. */
  method FlattenSamples(meterValue: Option<seq<RawMeterValue>>) returns (samples: seq<Sample>)
    ensures meterValue.None? ==> samples == []
    ensures meterValue.Some? ==> samples == Flatten(meterValue.value)
  {
    samples := [];
    if meterValue.None? {
      return;
    }
    var mvs := meterValue.value;
    var i := 0;
    while i < |mvs|
      invariant 0 <= i <= |mvs|
      invariant samples == Flatten(mvs[..i])
    {
      var mv := mvs[i];
      FlattenStep(mvs, i);
      if mv.sampledValue.Some? {
        var svs := mv.sampledValue.value;
        ghost var before := samples;
        ghost var entry := EntrySamples(mv);
        var j := 0;
        while j < |svs|
          invariant 0 <= j <= |svs|
          invariant samples == before + entry[..j]
        {
          PushStep(before, entry, j);
          samples := samples + [Normalize(svs[j])];
          j := j + 1;
        }
        assert entry[..j] == entry;
      }
      i := i + 1;
    }
    assert mvs[..i] == mvs;
  }

  /** The schema's requirements: a charge point, a connector, and a non-empty value in every
      sample (the defaulted "" fails the required check). */
  function ValidMeterRecord(chargePointId: string, connectorId: Option<int>, timestamp: Option<int>,
                            samples: seq<Sample>): (r: bool)
    ensures chargePointId == [] || connectorId.None? || timestamp.None? ==> !r
    ensures forall k :: 0 <= k < |samples| && samples[k].value == [] ==> !r
    ensures samples == [] ==> (r <==> chargePointId != [] && connectorId.Some? && timestamp.Some?)
  {
    chargePointId != [] && connectorId.Some? && timestamp.Some?
    && forall k :: 0 <= k < |samples| ==> samples[k].value != []
  }

  /** The timestamp of the first `meterValue` entry, else the top-level one. */
  function EntryTime(req: MeterValuesRequest): (t: Option<int>)
    ensures req.meterValue.Some? && req.meterValue.value != [] ==> t == Some(req.meterValue.value[0].timestamp)
    ensures req.meterValue.None? || req.meterValue.value == [] ==> t == req.timestamp
  {
    if req.meterValue.Some? && req.meterValue.value != [] then Some(req.meterValue.value[0].timestamp)
    else req.timestamp
  }

  /** A message shaped as OCPP 1.6 sends it (entries with timestamps, none at the top level)
      whose record is otherwise valid: the top-level timestamp refuses it, the entry time keeps it. */
  lemma TopLevelTimestampRefusesOcppMessages(chargePointId: string, req: MeterValuesRequest)
    requires req.timestamp.None? && req.meterValue.Some? && req.meterValue.value != []
    requires chargePointId != [] && req.connectorId.Some?
    requires var samples := Flatten(req.meterValue.value);
             forall k :: 0 <= k < |samples| ==> samples[k].value != []
    ensures !ValidMeterRecord(chargePointId, req.connectorId, req.timestamp, Flatten(req.meterValue.value))
    ensures ValidMeterRecord(chargePointId, req.connectorId, EntryTime(req), Flatten(req.meterValue.value))
  {
  }

  class MeterStore {
    var records: seq<MeterRecord>
    var nextId: nat

    ghost predicate Valid()
      reads this
    {
      forall k :: 0 <= k < |records| ==> records[k].id < nextId
    }

    constructor ()
      ensures Valid() && records == [] && nextId == 0
    {
      records := [];
      nextId := 0;
    }

    /** Saving one record holding every sample of the message, at the given time, with its
        transactionId (a missing or 0 id is stored as null); a missing time fails the cast. */
    method Store(chargePointId: string, req: MeterValuesRequest, timestamp: Option<int>)
      returns (r: Result<MeterRecord, MeterError>)
      requires Valid()
      modifies this
      ensures Valid()
      ensures var samples := if req.meterValue.Some? then Flatten(req.meterValue.value) else [];
              if ValidMeterRecord(chargePointId, req.connectorId, timestamp, samples)
              then r.Ok? && records == old(records) + [r.value] && nextId == old(nextId) + 1
                   && r.value == MeterRecord(old(nextId), chargePointId, req.connectorId.value,
                                             if req.transactionId == Some(0) then None else req.transactionId,
                                             timestamp.value, samples)
              else r == Err(MeterValidationFailed) && records == old(records) && nextId == old(nextId)
    {
      var samples := FlattenSamples(req.meterValue);
      if !ValidMeterRecord(chargePointId, req.connectorId, timestamp, samples) {
        return Err(MeterValidationFailed);
      }
      var transactionId := if req.transactionId == Some(0) then None else req.transactionId;
      var m := MeterRecord(nextId, chargePointId, req.connectorId.value, transactionId, timestamp.value, samples);
      records := records + [m];
      nextId := nextId + 1;
      return Ok(m);
    }

    /** `createMeterValueFromOCPP` as written: the record takes the message's top-level
        timestamp, so a message without one is refused. */
    method CreateFromOcpp(chargePointId: string, req: MeterValuesRequest) returns (r: Result<MeterRecord, MeterError>)
      requires Valid()
      modifies this
      ensures Valid()
      ensures req.timestamp.None? ==> r == Err(MeterValidationFailed) && records == old(records)
      ensures var samples := if req.meterValue.Some? then Flatten(req.meterValue.value) else [];
              if ValidMeterRecord(chargePointId, req.connectorId, req.timestamp, samples)
              then r.Ok? && records == old(records) + [r.value]
                   && r.value == MeterRecord(old(nextId), chargePointId, req.connectorId.value,
                                             if req.transactionId == Some(0) then None else req.transactionId,
                                             req.timestamp.value, samples)
              else r == Err(MeterValidationFailed) && records == old(records)
    {
      r := Store(chargePointId, req, req.timestamp);
    }

    /** As intended: the record takes the time of the message's first `meterValue` entry, so
        a message that follows OCPP 1.6 is stored. */
    method CreateFromOcppAtEntryTime(chargePointId: string, req: MeterValuesRequest)
      returns (r: Result<MeterRecord, MeterError>)
      requires Valid()
      modifies this
      ensures Valid()
      ensures var samples := if req.meterValue.Some? then Flatten(req.meterValue.value) else [];
              if ValidMeterRecord(chargePointId, req.connectorId, EntryTime(req), samples)
              then r.Ok? && records == old(records) + [r.value]
                   && r.value == MeterRecord(old(nextId), chargePointId, req.connectorId.value,
                                             if req.transactionId == Some(0) then None else req.transactionId,
                                             EntryTime(req).value, samples)
              else r == Err(MeterValidationFailed) && records == old(records)
    {
      r := Store(chargePointId, req, EntryTime(req));
    }
  }

  // ---------------------------------------------------------------------------------------
  // Listing

  /** The filters of `getMeterValues`; "" and `None` are filters not given, and a transactionId
      of 0 is not a filter (falsy). A connectorId of `None` is an undefined one. */
  datatype MeterFilter = MeterFilter(chargePointId: string, connectorId: Option<int>, transactionId: int,
                                     startDate: Option<int>, endDate: Option<int>, limit: nat)

  predicate MeterSelected(m: MeterRecord, f: MeterFilter)
  {
    (f.chargePointId == [] || m.chargePointId == f.chargePointId)
    && (f.connectorId.None? || m.connectorId == f.connectorId.value)
    && (f.transactionId == 0 || m.transactionId == Some(f.transactionId))
    && (f.startDate.None? || m.timestamp >= f.startDate.value)
    && (f.endDate.None? || m.timestamp <= f.endDate.value)
  }

  function MeterTimestamp(m: MeterRecord): int
  {
    m.timestamp
  }

  /** `getMeterValues`: the selected records, newest first, at most `limit || 100`. */
  function GetMeterValues(rs: seq<MeterRecord>, f: MeterFilter): (r: seq<MeterRecord>)
    ensures |r| <= (if f.limit == 0 then 100 else f.limit)
    ensures forall k :: 0 <= k < |r| ==> r[k] in rs && MeterSelected(r[k], f)
    ensures SortedDesc(r, MeterTimestamp)
    ensures |r| == (if f.limit == 0 then 100 else f.limit)
            || forall k :: 0 <= k < |rs| && MeterSelected(rs[k], f) ==> rs[k] in r
    ensures forall k, i :: 0 <= k < |rs| && MeterSelected(rs[k], f) && rs[k] !in r && 0 <= i < |r|
                           ==> rs[k].timestamp <= r[i].timestamp
    ensures multiset(r) <= multiset(Filter(rs, m => MeterSelected(m, f)))
  {
    NewestMatches(rs, m => MeterSelected(m, f), MeterTimestamp, if f.limit == 0 then 100 else f.limit)
  }

  /** The listing holds every selected record up to the limit: exactly `limit || 100` of them
      when more match. */
  lemma GetMeterValuesLength(rs: seq<MeterRecord>, f: MeterFilter)
    ensures var n := if f.limit == 0 then 100 else f.limit;
            var matching := Count(rs, m => MeterSelected(m, f));
            |GetMeterValues(rs, f)| == if matching <= n then matching else n
  {
  }

  /** `getLatestMeterValue`: the newest record of a charge point's connector. */
  function LatestMeterValue(rs: seq<MeterRecord>, chargePointId: string, connectorId: int): (r: Option<MeterRecord>)
    ensures r.None? <==> forall k :: 0 <= k < |rs| ==> !(rs[k].chargePointId == chargePointId && rs[k].connectorId == connectorId)
    ensures r.Some? ==> r.value in rs && r.value.chargePointId == chargePointId && r.value.connectorId == connectorId
    ensures r.Some? ==> forall k :: 0 <= k < |rs| && rs[k].chargePointId == chargePointId && rs[k].connectorId == connectorId
                                    ==> rs[k].timestamp <= r.value.timestamp
  {
    NewestMatch(rs, (m: MeterRecord) => m.chargePointId == chargePointId && m.connectorId == connectorId, MeterTimestamp)
  }

  /** The sort key of an ascending sort by time. */
  function OldestFirst(m: MeterRecord): int
  {
    -m.timestamp
  }

  /** `getMeterValuesForTransaction`: the transaction's records, oldest first. */
  function ForTransaction(rs: seq<MeterRecord>, transactionId: int): (r: seq<MeterRecord>)
    ensures forall k :: 0 <= k < |r| ==> r[k] in rs && r[k].transactionId == Some(transactionId)
    ensures forall k :: 0 <= k < |rs| && rs[k].transactionId == Some(transactionId) ==> rs[k] in r
    ensures forall i, j :: 0 <= i < j < |r| ==> r[i].timestamp <= r[j].timestamp
    ensures multiset(r) == multiset(Filter(rs, (m: MeterRecord) => m.transactionId == Some(transactionId)))
  {
    var r := SelectSorted(rs, (m: MeterRecord) => m.transactionId == Some(transactionId), OldestFirst);
    assert forall i, j :: 0 <= i < j < |r| ==> OldestFirst(r[i]) >= OldestFirst(r[j]);
    r
  }

  // ---------------------------------------------------------------------------------------
  // Energy of a transaction

  /** The samples of a list of records, record after record. */
  function AllSamples(mvs: seq<MeterRecord>): seq<Sample>
  {
    if mvs == [] then [] else AllSamples(mvs[..|mvs| - 1]) + mvs[|mvs| - 1].samples
  }

  /** The loop step of `ScanBeginEnd`: one more record's samples. */
  lemma AllSamplesStep(mvs: seq<MeterRecord>, i: nat)
    requires i < |mvs|
    ensures AllSamples(mvs[..i + 1]) == AllSamples(mvs[..i]) + mvs[i].samples
  {
    assert mvs[..i + 1][..i] == mvs[..i];
  }

  predicate IsEnergy(s: Sample)
  {
    s.measurand == Some(EnergyActiveImportRegister)
  }

  predicate IsBegin(s: Sample)
  {
    IsEnergy(s) && s.context == TransactionBegin
  }

  predicate IsEnd(s: Sample)
  {
    IsEnergy(s) && s.context == TransactionEnd
  }

  predicate HasEnergy(samples: seq<Sample>)
  {
    exists k :: 0 <= k < |samples| && IsEnergy(samples[k])
  }

  /** The last element satisfying `p`. */
  /** No element satisfies p. */
  predicate NoneMatch<T>(s: seq<T>, p: T -> bool)
  {
    forall k :: 0 <= k < |s| ==> !p(s[k])
  }

  function LastMatch<T>(s: seq<T>, p: T -> bool): (r: Option<T>)
    ensures r.None? <==> NoneMatch(s, p)
    ensures r.Some? ==> r.value in s && p(r.value)
  {
    if s == [] then None
    else if p(s[|s| - 1]) then Some(s[|s| - 1])
    else
      var r := LastMatch(s[..|s| - 1], p);
      assert forall k :: 0 <= k < |s| - 1 ==> s[..|s| - 1][k] == s[k];
      r
  }

  /** The first element satisfying `p`. */
  function FirstMatch<T>(s: seq<T>, p: T -> bool): (r: Option<T>)
    ensures r.None? <==> NoneMatch(s, p)
    ensures r.Some? ==> exists k :: 0 <= k < |s| && s[k] == r.value && p(s[k]) && forall j :: 0 <= j < k ==> !p(s[j])
  {
    var k := FirstIndex(s, p);
    if k == |s| then None else Some(s[k])
  }

  /** The reading of a sample that was found. */
  function ReadingOf(s: Option<Sample>, parse: string -> Reading): (r: Option<Reading>)
    ensures r.Some? <==> s.Some?
  {
    if s.Some? then Some(parse(s.value.value)) else None
  }

  function Minus(a: Reading, b: Reading): (r: Reading)
    ensures r.Num? <==> a.Num? && b.Num?
    ensures r.Num? ==> r.x + b.x == a.x
  {
    if a.Num? && b.Num? then Num(a.x - b.x) else NaN
  }

  function Thousandth(a: Reading): (r: Reading)
    ensures r.Num? <==> a.Num?
    ensures r.Num? ==> r.x * 1000.0 == a.x
  {
    if a.Num? then Num(a.x / 1000.0) else NaN
  }

  /** An energy sample that names its unit. */
  predicate NamesEnergyUnit(s: Sample)
  {
    IsEnergy(s) && s.unit.Some?
  }

  /** The unit of the first record's first energy sample that names one, "Wh" otherwise. */
  function EnergyUnit(samples: seq<Sample>): (u: UnitOfMeasure)
    ensures (forall k :: 0 <= k < |samples| && IsEnergy(samples[k]) ==> samples[k].unit.None?) ==> u == Wh
    ensures u == Wh || exists k :: 0 <= k < |samples| && IsEnergy(samples[k]) && samples[k].unit == Some(u)
    ensures forall k :: (0 <= k < |samples| && NamesEnergyUnit(samples[k])
                         && forall j :: 0 <= j < k ==> !NamesEnergyUnit(samples[j])) ==> u == samples[k].unit.value
  {
    var s := FirstMatch(samples, NamesEnergyUnit);
    if s.Some? then s.value.unit.value else Wh
  }

  datatype EnergyReport = EnergyReport(
    startValue: Reading, stopValue: Reading, energyWh: Reading, energyKwh: Reading, unit: UnitOfMeasure,
    meterValueCount: nat)

  /** The report of a start and a stop reading. With a kWh unit the difference is already in
      kWh, and `energyWh` holds it unconverted. */
  function Report(start: Reading, stop: Reading, unit: UnitOfMeasure, count: nat): (r: EnergyReport)
    ensures r.startValue == start && r.stopValue == stop && r.unit == unit && r.meterValueCount == count
    ensures r.energyWh == Minus(stop, start)
    ensures unit == KWh ==> r.energyKwh == r.energyWh
    ensures unit != KWh ==> r.energyKwh == Thousandth(r.energyWh)
  {
    var wh := Minus(stop, start);
    EnergyReport(start, stop, wh, if unit == KWh then wh else Thousandth(wh), unit, count)
  }

  /** A fallback applied only when it found something. */
  function Fallback(current: Option<Reading>, found: Option<Reading>): (r: Option<Reading>)
    ensures r.None? <==> current.None? && found.None?
  {
    if found.Some? then found else current
  }

  /** The start and stop readings `getEnergyFromMeterValues` settles on for a non-empty list:
      the last Transaction.Begin and Transaction.End energy samples, and when either is missing,
      the first energy sample of the first and of the last record where there is one. */
  function StartStop(mvs: seq<MeterRecord>, parse: string -> Reading): (r: (Option<Reading>, Option<Reading>))
    requires mvs != []
    ensures r.0.None? <==> NoneMatch(AllSamples(mvs), IsBegin) && NoneMatch(mvs[0].samples, IsEnergy)
    ensures r.1.None? <==> NoneMatch(AllSamples(mvs), IsEnd) && NoneMatch(mvs[|mvs| - 1].samples, IsEnergy)
  {
    var begin := ReadingOf(LastMatch(AllSamples(mvs), IsBegin), parse);
    var end := ReadingOf(LastMatch(AllSamples(mvs), IsEnd), parse);
    if begin.None? || end.None? then
      (Fallback(begin, ReadingOf(FirstMatch(mvs[0].samples, IsEnergy), parse)),
       Fallback(end, ReadingOf(FirstMatch(mvs[|mvs| - 1].samples, IsEnergy), parse)))
    else (begin, end)
  }

  /** `getEnergyFromMeterValues` over a transaction's records in ascending time order. */
  function Energy(mvs: seq<MeterRecord>, parse: string -> Reading): (r: Option<EnergyReport>)
    ensures mvs == [] ==> r.None?
    ensures mvs != [] ==> (r.Some? <==> StartStop(mvs, parse).0.Some? && StartStop(mvs, parse).1.Some?)
    ensures r.Some? ==> r.value == Report(StartStop(mvs, parse).0.value, StartStop(mvs, parse).1.value,
                                          EnergyUnit(mvs[0].samples), |mvs|)
  {
    if mvs == [] then None
    else
      var (start, stop) := StartStop(mvs, parse);
      if start.Some? && stop.Some? then Some(Report(start.value, stop.value, EnergyUnit(mvs[0].samples), |mvs|))
      else None
  }

  /** With both a Transaction.Begin and a Transaction.End energy sample, the last of each is used. */
  lemma BeginAndEndSamplesDecide(mvs: seq<MeterRecord>, parse: string -> Reading)
    requires mvs != []
    requires exists k :: 0 <= k < |AllSamples(mvs)| && IsBegin(AllSamples(mvs)[k])
    requires exists k :: 0 <= k < |AllSamples(mvs)| && IsEnd(AllSamples(mvs)[k])
    ensures Energy(mvs, parse).Some?
    ensures Energy(mvs, parse).value.startValue == parse(LastMatch(AllSamples(mvs), IsBegin).value.value)
    ensures Energy(mvs, parse).value.stopValue == parse(LastMatch(AllSamples(mvs), IsEnd).value.value)
  {
  }

  /** Records without any energy sample give no report. */
  lemma NoEnergySamplesNoReport(mvs: seq<MeterRecord>, parse: string -> Reading)
    requires forall i, k :: 0 <= i < |mvs| && 0 <= k < |mvs[i].samples| ==> !IsEnergy(mvs[i].samples[k])
    ensures Energy(mvs, parse).None?
  {
    if mvs != [] {
      forall k | 0 <= k < |AllSamples(mvs)|
        ensures !IsEnergy(AllSamples(mvs)[k])
      {
        AllSamplesIn(mvs, AllSamples(mvs)[k]);
      }
    }
  }

  lemma {:induction false} AllSamplesIn(mvs: seq<MeterRecord>, s: Sample)
    requires s in AllSamples(mvs)
    ensures exists i, k :: 0 <= i < |mvs| && 0 <= k < |mvs[i].samples| && mvs[i].samples[k] == s
  {
    var init := mvs[..|mvs| - 1];
    if s in AllSamples(init) {
      AllSamplesIn(init, s);
      var i, k :| 0 <= i < |init| && 0 <= k < |init[i].samples| && init[i].samples[k] == s;
      assert mvs[i] == init[i];
    } else {
      var k :| 0 <= k < |mvs[|mvs| - 1].samples| && mvs[|mvs| - 1].samples[k] == s;
    }
  }

  /** Without Begin and End samples, energy samples in the first and last records give a report
      from the first of each. */
  lemma FirstAndLastRecordsDecide(mvs: seq<MeterRecord>, parse: string -> Reading)
    requires mvs != []
    requires forall k :: 0 <= k < |AllSamples(mvs)| ==> !IsBegin(AllSamples(mvs)[k])
    requires HasEnergy(mvs[0].samples) && HasEnergy(mvs[|mvs| - 1].samples)
    ensures Energy(mvs, parse).Some?
    ensures Energy(mvs, parse).value.startValue == parse(FirstMatch(mvs[0].samples, IsEnergy).value.value)
    ensures Energy(mvs, parse).value.stopValue == parse(FirstMatch(mvs[|mvs| - 1].samples, IsEnergy).value.value)
  {
    assert LastMatch(AllSamples(mvs), IsBegin).None?;
    var first := FirstMatch(mvs[0].samples, IsEnergy);
    var last := FirstMatch(mvs[|mvs| - 1].samples, IsEnergy);
    assert first.Some? && last.Some?;
    assert StartStop(mvs, parse).0 == Some(parse(first.value.value));
    assert StartStop(mvs, parse).1 == Some(parse(last.value.value));
  }

  lemma {:induction false} LastMatchSnoc<T>(s: seq<T>, x: T, p: T -> bool)
    ensures LastMatch(s + [x], p) == if p(x) then Some(x) else LastMatch(s, p)
  {
    assert (s + [x])[..|s + [x]| - 1] == s;
  }

  /** One more element of `t` scanned after `s`. */
  lemma LastMatchStep<T>(s: seq<T>, t: seq<T>, j: nat, p: T -> bool)
    requires j < |t|
    ensures LastMatch(s + t[..j + 1], p) == if p(t[j]) then Some(t[j]) else LastMatch(s + t[..j], p)
  {
    assert s + t[..j + 1] == (s + t[..j]) + [t[j]];
    LastMatchSnoc(s + t[..j], t[j], p);
  }

  /** The first element satisfying `p`, found by the loop with an early exit. */
  method FindFirst(samples: seq<Sample>, p: Sample -> bool) returns (found: Option<Sample>)
    ensures found == FirstMatch(samples, p)
  {
    var j := 0;
    while j < |samples|
      invariant 0 <= j <= |samples|
      invariant forall k :: 0 <= k < j ==> !p(samples[k])
    {
      if p(samples[j]) {
        return Some(samples[j]);
      }
      j := j + 1;
    }
    return None;
  }

  /** The inner loop of `getEnergyFromMeterValues` over one record's samples, continuing from
      the readings found in the samples `seen` before them. */
  method ScanSamples(seen: seq<Sample>, samples: seq<Sample>, start0: Option<Reading>, stop0: Option<Reading>,
                     parse: string -> Reading)
    returns (startValue: Option<Reading>, stopValue: Option<Reading>)
    requires start0 == ReadingOf(LastMatch(seen, IsBegin), parse)
    requires stop0 == ReadingOf(LastMatch(seen, IsEnd), parse)
    ensures startValue == ReadingOf(LastMatch(seen + samples, IsBegin), parse)
    ensures stopValue == ReadingOf(LastMatch(seen + samples, IsEnd), parse)
  {
    startValue, stopValue := start0, stop0;
    var j := 0;
    assert seen + samples[..j] == seen;
    while j < |samples|
      invariant 0 <= j <= |samples|
      invariant startValue == ReadingOf(LastMatch(seen + samples[..j], IsBegin), parse)
      invariant stopValue == ReadingOf(LastMatch(seen + samples[..j], IsEnd), parse)
    {
      var sv := samples[j];
      LastMatchStep(seen, samples, j, IsBegin);
      LastMatchStep(seen, samples, j, IsEnd);
      if IsBegin(sv) {
        startValue := Some(parse(sv.value));
      }
      if IsEnd(sv) {
        stopValue := Some(parse(sv.value));
      }
      j := j + 1;
    }
    assert samples[..j] == samples;
  }

  /** The loop of `getEnergyFromMeterValues` over every sample of every record: the readings of
      the last Transaction.Begin and Transaction.End energy samples. */
  method ScanBeginEnd(mvs: seq<MeterRecord>, parse: string -> Reading)
    returns (startValue: Option<Reading>, stopValue: Option<Reading>)
    ensures startValue == ReadingOf(LastMatch(AllSamples(mvs), IsBegin), parse)
    ensures stopValue == ReadingOf(LastMatch(AllSamples(mvs), IsEnd), parse)
  {
    startValue, stopValue := None, None;
    var i := 0;
    while i < |mvs|
      invariant 0 <= i <= |mvs|
      invariant startValue == ReadingOf(LastMatch(AllSamples(mvs[..i]), IsBegin), parse)
      invariant stopValue == ReadingOf(LastMatch(AllSamples(mvs[..i]), IsEnd), parse)
    {
      AllSamplesStep(mvs, i);
      startValue, stopValue := ScanSamples(AllSamples(mvs[..i]), mvs[i].samples, startValue, stopValue, parse);
      i := i + 1;
    }
    assert mvs[..i] == mvs;
  }

  /** `getEnergyFromMeterValues`: the scan of the transaction's records, then the fallbacks,
      then the unit. */
  method EnergyFromMeterValues(records: seq<MeterRecord>, transactionId: int, parse: string -> Reading)
    returns (r: Option<EnergyReport>)
    ensures r == Energy(ForTransaction(records, transactionId), parse)
  {
    var mvs := ForTransaction(records, transactionId);
    if |mvs| == 0 {
      return None;
    }
    var startValue, stopValue := ScanBeginEnd(mvs, parse);
    if startValue.None? || stopValue.None? {
      var first := FindFirst(mvs[0].samples, IsEnergy);
      if first.Some? {
        startValue := Some(parse(first.value.value));
      }
      var last := FindFirst(mvs[|mvs| - 1].samples, IsEnergy);
      if last.Some? {
        stopValue := Some(parse(last.value.value));
      }
    }
    assert (startValue, stopValue) == StartStop(mvs, parse);
    if startValue.Some? && stopValue.Some? {
      var unitSample := FindFirst(mvs[0].samples, NamesEnergyUnit);
      var unit := if unitSample.Some? then unitSample.value.unit.value else Wh;
      assert unit == EnergyUnit(mvs[0].samples);
      return Some(Report(startValue.value, stopValue.value, unit, |mvs|));
    }
    return None;
  }

  // ---------------------------------------------------------------------------------------
  // Power statistics of a connector

  predicate IsPower(s: Sample)
  {
    s.measurand == Some(PowerActiveImport) || s.measurand == Some(PowerActiveExport)
  }

  /** A power reading in kW, stamped with its record's time. */
  datatype PowerValue = PowerValue(timestamp: int, power: real)

  /** The power value a sample contributes: a numeric power reading, converted from W unless
      its unit is kW. */
  function PowerOf(timestamp: int, s: Sample, parse: string -> Reading): (r: Option<PowerValue>)
    ensures r.Some? <==> IsPower(s) && parse(s.value).Num?
    ensures r.Some? && s.unit == Some(KW) ==> r.value.power == parse(s.value).x
    ensures r.Some? && s.unit != Some(KW) ==> r.value.power * 1000.0 == parse(s.value).x
  {
    if IsPower(s) && parse(s.value).Num? then
      Some(PowerValue(timestamp, if s.unit == Some(KW) then parse(s.value).x else parse(s.value).x / 1000.0))
    else None
  }

  /** The power values of one record's samples, in order. */
  function RecordPowers(timestamp: int, samples: seq<Sample>, parse: string -> Reading): seq<PowerValue>
  {
    if samples == [] then []
    else
      var last := PowerOf(timestamp, samples[|samples| - 1], parse);
      RecordPowers(timestamp, samples[..|samples| - 1], parse) + (if last.Some? then [last.value] else [])
  }

  /** The power values of a list of records, record after record. */
  function Powers(mvs: seq<MeterRecord>, parse: string -> Reading): seq<PowerValue>
  {
    if mvs == [] then []
    else Powers(mvs[..|mvs| - 1], parse) + RecordPowers(mvs[|mvs| - 1].timestamp, mvs[|mvs| - 1].samples, parse)
  }

  /** The loop step of `RecordPowerValues`: one more sample of the record. */
  lemma RecordPowersStep(timestamp: int, samples: seq<Sample>, j: nat, parse: string -> Reading)
    requires j < |samples|
    ensures var last := PowerOf(timestamp, samples[j], parse);
            RecordPowers(timestamp, samples[..j + 1], parse)
            == RecordPowers(timestamp, samples[..j], parse) + (if last.Some? then [last.value] else [])
  {
    assert samples[..j + 1][..j] == samples[..j];
  }

  /** The loop step of `PowerStatistics`: one more record. */
  lemma PowersStep(mvs: seq<MeterRecord>, i: nat, parse: string -> Reading)
    requires i < |mvs|
    ensures Powers(mvs[..i + 1], parse) == Powers(mvs[..i], parse) + RecordPowers(mvs[i].timestamp, mvs[i].samples, parse)
  {
    assert mvs[..i + 1][..i] == mvs[..i];
  }

  /** The records `getPowerStatistics` reads: the charge point's connector, within the dates. */
  predicate PowerSelected(m: MeterRecord, chargePointId: string, connectorId: int, startDate: Option<int>, endDate: Option<int>)
  {
    m.chargePointId == chargePointId && m.connectorId == connectorId
    && (startDate.None? || m.timestamp >= startDate.value)
    && (endDate.None? || m.timestamp <= endDate.value)
  }

  /** The records `getPowerStatistics` reads, oldest first. */
  function PowerRecords(rs: seq<MeterRecord>, chargePointId: string, connectorId: int, startDate: Option<int>,
                        endDate: Option<int>): (r: seq<MeterRecord>)
    ensures forall k :: 0 <= k < |r| ==> r[k] in rs && PowerSelected(r[k], chargePointId, connectorId, startDate, endDate)
    ensures forall k :: 0 <= k < |rs| && PowerSelected(rs[k], chargePointId, connectorId, startDate, endDate) ==> rs[k] in r
    ensures forall i, j :: 0 <= i < j < |r| ==> r[i].timestamp <= r[j].timestamp
    ensures multiset(r) == multiset(Filter(rs, m => PowerSelected(m, chargePointId, connectorId, startDate, endDate)))
  {
    var r := SelectSorted(rs, m => PowerSelected(m, chargePointId, connectorId, startDate, endDate), OldestFirst);
    assert forall i, j :: 0 <= i < j < |r| ==> OldestFirst(r[i]) >= OldestFirst(r[j]);
    r
  }

  function SumPower(ps: seq<PowerValue>): real
  {
    if ps == [] then 0.0 else SumPower(ps[..|ps| - 1]) + ps[|ps| - 1].power
  }

  function MaxPower(ps: seq<PowerValue>): (m: real)
    requires ps != []
    ensures forall k :: 0 <= k < |ps| ==> ps[k].power <= m
    ensures exists k :: 0 <= k < |ps| && ps[k].power == m
  {
    if |ps| == 1 then ps[0].power
    else
      var rest := MaxPower(ps[..|ps| - 1]);
      assert forall k :: 0 <= k < |ps| - 1 ==> ps[..|ps| - 1][k] == ps[k];
      if ps[|ps| - 1].power > rest then ps[|ps| - 1].power else rest
  }

  function MinPower(ps: seq<PowerValue>): (m: real)
    requires ps != []
    ensures forall k :: 0 <= k < |ps| ==> m <= ps[k].power
    ensures exists k :: 0 <= k < |ps| && ps[k].power == m
  {
    if |ps| == 1 then ps[0].power
    else
      var rest := MinPower(ps[..|ps| - 1]);
      assert forall k :: 0 <= k < |ps| - 1 ==> ps[..|ps| - 1][k] == ps[k];
      if ps[|ps| - 1].power < rest then ps[|ps| - 1].power else rest
  }

  datatype PowerStats = PowerStats(averagePower: real, maxPower: real, minPower: real, sampleCount: nat,
                                   powerValues: seq<PowerValue>)

  /** The summary of the collected values: null when there are none. */
  function Summarize(ps: seq<PowerValue>): (r: Option<PowerStats>)
    ensures r.None? <==> ps == []
    ensures r.Some? ==> r.value.sampleCount == |ps| && r.value.powerValues == ps
    ensures r.Some? ==> r.value.averagePower * |ps| as real == SumPower(ps)
    ensures r.Some? ==> r.value.maxPower == MaxPower(ps) && r.value.minPower == MinPower(ps)
  {
    if ps == [] then None
    else Some(PowerStats(SumPower(ps) / |ps| as real, MaxPower(ps), MinPower(ps), |ps|, ps))
  }

  lemma {:induction false} SumPowerBounds(ps: seq<PowerValue>, lo: real, hi: real)
    requires forall k :: 0 <= k < |ps| ==> lo <= ps[k].power <= hi
    ensures lo * |ps| as real <= SumPower(ps) <= hi * |ps| as real
  {
    if ps != [] {
      var init := ps[..|ps| - 1];
      assert forall k :: 0 <= k < |init| ==> init[k] == ps[k];
      SumPowerBounds(init, lo, hi);
      assert lo * |ps| as real == lo * |init| as real + lo;
      assert hi * |ps| as real == hi * |init| as real + hi;
    }
  }

  /** The average lies between the least and the greatest value. */
  lemma AverageBetweenMinAndMax(ps: seq<PowerValue>)
    requires ps != []
    ensures Summarize(ps).value.minPower <= Summarize(ps).value.averagePower <= Summarize(ps).value.maxPower
  {
    var n := |ps| as real;
    var lo, hi := MinPower(ps), MaxPower(ps);
    var avg := SumPower(ps) / n;
    SumPowerBounds(ps, lo, hi);
    DivideBounds(lo, SumPower(ps), hi, n);
    assert Summarize(ps).value == PowerStats(avg, hi, lo, |ps|, ps);
  }

  lemma DivideBounds(lo: real, sum: real, hi: real, n: real)
    requires n > 0.0 && lo * n <= sum <= hi * n
    ensures lo <= sum / n <= hi
  {
    assert sum / n * n == sum;
  }

  /** The inner loop of `getPowerStatistics` over one record's samples. */
  method RecordPowerValues(timestamp: int, samples: seq<Sample>, parse: string -> Reading)
    returns (ps: seq<PowerValue>)
    ensures ps == RecordPowers(timestamp, samples, parse)
  {
    ps := [];
    var j := 0;
    while j < |samples|
      invariant 0 <= j <= |samples|
      invariant ps == RecordPowers(timestamp, samples[..j], parse)
    {
      var sv := samples[j];
      RecordPowersStep(timestamp, samples, j, parse);
      if IsPower(sv) {
        var power := parse(sv.value);
        if power.Num? {
          var kw := if sv.unit == Some(KW) then power.x else power.x / 1000.0;
          ps := ps + [PowerValue(timestamp, kw)];
        }
      }
      j := j + 1;
    }
    assert samples[..j] == samples;
  }

  /** `getPowerStatistics`: the loop over the selected records, oldest first, collects the power
      values, then the summary is taken. */
  method PowerStatistics(records: seq<MeterRecord>, chargePointId: string, connectorId: int,
                         startDate: Option<int>, endDate: Option<int>, parse: string -> Reading)
    returns (r: Option<PowerStats>)
    ensures r == Summarize(Powers(PowerRecords(records, chargePointId, connectorId, startDate, endDate), parse))
  {
    var mvs := PowerRecords(records, chargePointId, connectorId, startDate, endDate);
    var powerValues: seq<PowerValue> := [];
    var i := 0;
    while i < |mvs|
      invariant 0 <= i <= |mvs|
      invariant powerValues == Powers(mvs[..i], parse)
    {
      PowersStep(mvs, i, parse);
      var ps := RecordPowerValues(mvs[i].timestamp, mvs[i].samples, parse);
      powerValues := powerValues + ps;
      i := i + 1;
    }
    assert mvs[..i] == mvs;
    return Summarize(powerValues);
  }
}
