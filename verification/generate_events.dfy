/** Turning predicted loads into one OpenADR3 capacity-limitation event
    (src/application/generate_events.py). */
module GenerateEvents {
  import opened Wrappers
  import opened Errors
  import opened Indices
  import opened DateFormat
  import opened PredictedLoad

  datatype EventPayloadType = ImportCapacityLimit

  datatype Unit = KW

  datatype IntervalPeriod = IntervalPeriod(start: int, duration: int)

  datatype EventPayload = EventPayload(payloadType: EventPayloadType, values: seq<real>)

  datatype Interval = Interval(id: int, intervalPeriod: IntervalPeriod, payloads: seq<EventPayload>)

  datatype EventPayloadDescriptor = EventPayloadDescriptor(payloadType: EventPayloadType, units: Unit)

  datatype Target = Target(targetType: string, values: seq<string>)

  datatype NewEvent = NewEvent(
    programId: string,
    eventName: string,
    payloadDescriptors: seq<EventPayloadDescriptor>,
    intervals: seq<Interval>,
    targets: seq<Target>)

  /** The deployment settings the workflow reads from its environment. */
  datatype Config = Config(maxCapacity: real, programId: string, venName: string, mockEanNumber: string)

  /** The value put in a payload when no flex capacity is required. */
  const NoFlexFallback: real := 22.0

  const EventNamePrefix: string := "bl-generated-event-"

  /** Python truthiness of a `float | None`: None and zero are false. */
  predicate Truthy(x: Option<real>)
  {
    x.Some? && x.value != 0.0
  }

  /** The limit put in the interval for `load`: the required flex capacity, or 22 when
      none is required (Python's `flex or 22`). */
  function CapacityLimitValue(load: PredictedGridAssetLoad, maxCapacity: real): (v: real)
    ensures MinGuaranteedCapacity < v <= NoFlexFallback
    ensures load.load <= maxCapacity ==> v == NoFlexFallback
    ensures load.load > maxCapacity ==> Some(v) == FlexCapacityRequired(load, maxCapacity)
  {
    var flex := FlexCapacityRequired(load, maxCapacity);
    if Truthy(flex) then flex.value else NoFlexFallback
  }

  /** The shape every generated interval has: one capacity-limit payload with one value in (4, 22]. */
  predicate IsCapacityLimitationInterval(interval: Interval)
  {
    && |interval.payloads| == 1
    && interval.payloads[0].payloadType == ImportCapacityLimit
    && |interval.payloads[0].values| == 1
    && MinGuaranteedCapacity < interval.payloads[0].values[0] <= NoFlexFallback
  }

  /** `_generate_capacity_limitation_intervals`: one interval for one load. */
  function CapacityLimitationInterval(id: int, load: PredictedGridAssetLoad, maxCapacity: real): (r: Interval)
    ensures r.id == id
    ensures r.intervalPeriod.start == load.time && r.intervalPeriod.duration == load.duration
    ensures IsCapacityLimitationInterval(r)
    ensures r.payloads[0].values[0] == CapacityLimitValue(load, maxCapacity)
  {
    Interval(
      id,
      IntervalPeriod(load.time, load.duration),
      [EventPayload(ImportCapacityLimit, [CapacityLimitValue(load, maxCapacity)])])
  }

  /** `enumerate` over the loads, numbering the intervals from `firstId`. */
  function EnumerateIntervals(loads: seq<PredictedGridAssetLoad>, firstId: int, maxCapacity: real): (r: seq<Interval>)
    ensures |r| == |loads|
    ensures forall i :: 0 <= i < |r| ==> r[i] == CapacityLimitationInterval(firstId + i, loads[i], maxCapacity)
    decreases |loads|
  {
    if loads == [] then []
    else [CapacityLimitationInterval(firstId, loads[0], maxCapacity)] + EnumerateIntervals(loads[1..], firstId + 1, maxCapacity)
  }

  /** The ids of a sequence of intervals, in order. */
  function IntervalIds(intervals: seq<Interval>): seq<int>
  {
    if intervals == [] then [] else [intervals[0].id] + IntervalIds(intervals[1..])
  }

  /** The interval ids are exactly firstId, firstId + 1, ..., in input order. */
  lemma {:induction false} EnumeratedIdsAreRange(loads: seq<PredictedGridAssetLoad>, firstId: int, maxCapacity: real)
    ensures IntervalIds(EnumerateIntervals(loads, firstId, maxCapacity)) == Range(firstId, firstId + |loads|)
    decreases |loads|
  {
    if loads != [] {
      var r := EnumerateIntervals(loads, firstId, maxCapacity);
      assert r[1..] == EnumerateIntervals(loads[1..], firstId + 1, maxCapacity);
      EnumeratedIdsAreRange(loads[1..], firstId + 1, maxCapacity);
    }
  }

  /** The event name: the prefix followed by the date as dd-mm-yyyy. */
  function EventName(today: Date): (name: string)
    requires ValidDate(today)
    ensures |name| == |EventNamePrefix| + 10
    ensures name[..|EventNamePrefix|] == EventNamePrefix
  {
    EventNamePrefix + FormatDate(today)
  }

  /** Reads the date back out of an event name; None if it is not one. */
  function ParseEventName(name: string): Option<Date>
  {
    if |name| >= |EventNamePrefix| && name[..|EventNamePrefix|] == EventNamePrefix
    then ParseDate(name[|EventNamePrefix|..])
    else None
  }

  /** The event name records the date it was generated on. */
  lemma EventNameRoundTrip(today: Date)
    requires ValidDate(today)
    ensures ParseEventName(EventName(today)) == Some(today)
  {
    assert EventName(today)[|EventNamePrefix|..] == FormatDate(today);
    ParseFormatDate(today);
  }

  /** Two events get the same name exactly when they are generated on the same day. */
  lemma EventNamesCollideOnlyOnSameDay(d1: Date, d2: Date)
    requires ValidDate(d1) && ValidDate(d2)
    ensures EventName(d1) == EventName(d2) <==> d1 == d2
  {
    if EventName(d1) == EventName(d2) {
      EventNameRoundTrip(d1);
      EventNameRoundTrip(d2);
    }
  }

  /** `_generate_capacity_limitation_event`: one interval per load in input order, one
      capacity-limit descriptor in kW, and the VEN-name and EAN targets. */
  function CapacityLimitationEvent(
    loads: seq<PredictedGridAssetLoad>, maxCapacity: real, config: Config, today: Date): (e: NewEvent)
    requires ValidDate(today)
    ensures e.programId == config.programId
    ensures ParseEventName(e.eventName) == Some(today)
    ensures e.payloadDescriptors == [EventPayloadDescriptor(ImportCapacityLimit, KW)]
    ensures e.targets == [Target("VEN_NAME", [config.venName]), Target("POWER_SERVICE_LOCATION", [config.mockEanNumber])]
    ensures |e.intervals| == |loads|
    ensures IntervalIds(e.intervals) == Range(0, |loads|)
    ensures forall i :: 0 <= i < |loads| ==>
      && e.intervals[i].intervalPeriod == IntervalPeriod(loads[i].time, loads[i].duration)
      && IsCapacityLimitationInterval(e.intervals[i])
      && e.intervals[i].payloads[0].values[0] == CapacityLimitValue(loads[i], maxCapacity)
  {
    EventNameRoundTrip(today);
    EnumeratedIdsAreRange(loads, 0, maxCapacity);
    NewEvent(
      config.programId,
      EventName(today),
      [EventPayloadDescriptor(ImportCapacityLimit, KW)],
      EnumerateIntervals(loads, 0, maxCapacity),
      [Target("VEN_NAME", [config.venName]), Target("POWER_SERVICE_LOCATION", [config.mockEanNumber])])
  }

  /** The capability set a workflow run is handed (`PredictionActionsBase`): fetch the
      predicted loads for a window, and audit them. Either may raise. The read and write
      sessions are folded into the two functions. */
  datatype PredictionActions = PredictionActions(
    getPredictedGridAssetLoad: (int, int) -> Result<seq<PredictedGridAssetLoad>, Exception>,
    auditPredictedGridAssetLoads: seq<PredictedGridAssetLoad> -> Outcome<Exception>)

  /** The calls a run makes on its actions, in order. */
  datatype ActionCall =
    | GetQueryApi
    | GetPredictedGridAssetLoad(fromDate: int, toDate: int)
    | GetWriteApi
    | AuditPredictedGridAssetLoads(loads: seq<PredictedGridAssetLoad>)

  /** What a run returns (or raises), with the calls it made. */
  datatype Run = Run(result: Result<Option<NewEvent>, Exception>, calls: seq<ActionCall>)

  /** The load lists passed to audit in a sequence of calls, in order. */
  function Audits(calls: seq<ActionCall>): seq<seq<PredictedGridAssetLoad>>
  {
    if calls == [] then []
    else if calls[0].AuditPredictedGridAssetLoads? then [calls[0].loads] + Audits(calls[1..])
    else Audits(calls[1..])
  }

  /** Auditing distributes over concatenation of call sequences. */
  lemma {:induction false} AuditsAppend(a: seq<ActionCall>, b: seq<ActionCall>)
    ensures Audits(a + b) == Audits(a) + Audits(b)
  {
    if a == [] {
      assert a + b == b;
    } else {
      assert (a + b)[1..] == a[1..] + b;
      AuditsAppend(a[1..], b);
    }
  }

  /** The calls every run starts with: get the read session, then fetch the window. */
  function FetchCalls(fromDate: int, toDate: int): (calls: seq<ActionCall>)
    ensures Audits(calls) == []
  {
    assert Audits([GetPredictedGridAssetLoad(fromDate, toDate)]) == [] by {
      assert [GetPredictedGridAssetLoad(fromDate, toDate)][1..] == [];
    }
    [GetQueryApi, GetPredictedGridAssetLoad(fromDate, toDate)]
  }

  /** The calls that follow a non-empty fetch: get the write session, then audit the loads once. */
  function AuditCalls(loads: seq<PredictedGridAssetLoad>): (calls: seq<ActionCall>)
    ensures Audits(calls) == [loads]
  {
    assert Audits([AuditPredictedGridAssetLoads(loads)]) == [loads] by {
      assert [AuditPredictedGridAssetLoads(loads)][1..] == [];
    }
    [GetWriteApi, AuditPredictedGridAssetLoads(loads)]
  }

  /** `get_capacity_limitation_event`: fetch the predictions for [fromDate, toDate); with
      none, return None without auditing or asking for a write session; otherwise audit
      them once and build the event with the configured maximum capacity. Exceptions from
      the fetch and from the audit propagate. */
  function GetCapacityLimitationEvent(
    actions: PredictionActions, fromDate: int, toDate: int, config: Config, today: Date): (r: Run)
    requires ValidDate(today)
    ensures |r.calls| >= 2 && r.calls[..2] == [GetQueryApi, GetPredictedGridAssetLoad(fromDate, toDate)]
    ensures var fetched := actions.getPredictedGridAssetLoad(fromDate, toDate);
      && (fetched.Failure? ==> r.result == Failure(fetched.error))
      && (fetched == Success([]) ==> r.result == Success(None))
      && (fetched.Failure? || fetched == Success([]) ==>
            r.calls == [GetQueryApi, GetPredictedGridAssetLoad(fromDate, toDate)])
      && (fetched.Success? && fetched.value != [] ==>
            r.calls == [GetQueryApi, GetPredictedGridAssetLoad(fromDate, toDate), GetWriteApi, AuditPredictedGridAssetLoads(fetched.value)])
      && (Audits(r.calls) == if fetched.Success? && fetched.value != [] then [fetched.value] else [])
      && (fetched.Success? && fetched.value != [] && actions.auditPredictedGridAssetLoads(fetched.value).Fail? ==>
            r.result == Failure(actions.auditPredictedGridAssetLoads(fetched.value).error))
      && (r.result.Success? && r.result.value.Some? <==>
            fetched.Success? && fetched.value != [] && actions.auditPredictedGridAssetLoads(fetched.value).Pass?)
      && (r.result.Success? && r.result.value.Some? ==>
            r.result.value.value == CapacityLimitationEvent(fetched.value, config.maxCapacity, config, today))
  {
    match actions.getPredictedGridAssetLoad(fromDate, toDate)
    case Failure(e) => Run(Failure(e), FetchCalls(fromDate, toDate))
    case Success(loads) =>
      if loads == [] then Run(Success(None), FetchCalls(fromDate, toDate))
      else
        AuditsAppend(FetchCalls(fromDate, toDate), AuditCalls(loads));
        var calls := FetchCalls(fromDate, toDate) + AuditCalls(loads);
        match actions.auditPredictedGridAssetLoads(loads)
        case Fail(e) => Run(Failure(e), calls)
        case Pass => Run(Success(Some(CapacityLimitationEvent(loads, config.maxCapacity, config, today))), calls)
  }
}
