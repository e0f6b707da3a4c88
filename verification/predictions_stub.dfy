/** The stub prediction source (src/infrastructure/predictions_actions_stub_impl.py):
    random loads for every quarter hour of a window, and an audit that does nothing. */
module PredictionsStub {
  import opened Wrappers
  import opened Errors
  import opened DateFormat
  import opened PredictedLoad
  import opened GenerateEvents

  /** The number of quarter hours starting in [fromDate, toDate): the ceiling of the
      window length over 15 minutes, or zero for an empty window. */
  function QuarterHourSlots(fromDate: int, toDate: int): nat
  {
    if toDate <= fromDate then 0 else (toDate - fromDate + QuarterHour - 1) / QuarterHour
  }

  /** `random.randint(20, 150)` as a real: an integer between 20 and 150 inclusive. */
  predicate IsStubLoadValue(x: real)
  {
    20.0 <= x <= 150.0 && x == x.Floor as real
  }

  /** Everything the stub promises of the loads it returns for [fromDate, toDate). */
  predicate IsStubPrediction(loads: seq<PredictedGridAssetLoad>, fromDate: int, toDate: int)
  {
    && |loads| == QuarterHourSlots(fromDate, toDate)
    && (forall i :: 0 <= i < |loads| ==> loads[i].time == fromDate + i * QuarterHour)
    && (forall i :: 0 <= i < |loads| ==> loads[i].duration == QuarterHour)
    && (forall i :: 0 <= i < |loads| ==> IsStubLoadValue(loads[i].load))
  }

  /** `get_predicted_grid_asset_load` of the stub: steps from fromDate in 15-minute
      increments while the time is before toDate, drawing a random load for each step. */
  method StubGetPredictedGridAssetLoad(fromDate: int, toDate: int) returns (loads: seq<PredictedGridAssetLoad>)
    ensures |loads| == QuarterHourSlots(fromDate, toDate)
    ensures fromDate < toDate ==> loads[0].time == fromDate
    ensures forall i :: 0 <= i < |loads| ==> fromDate <= loads[i].time < toDate
    ensures forall i :: 0 < i < |loads| ==> loads[i].time == loads[i - 1].time + QuarterHour
    ensures forall i :: 0 <= i < |loads| ==> loads[i].duration == QuarterHour
    ensures forall i :: 0 <= i < |loads| ==> IsStubLoadValue(loads[i].load)
    ensures IsStubPrediction(loads, fromDate, toDate)
  {
    loads := [];
    var currentTime := fromDate;
    while currentTime < toDate
      invariant currentTime == fromDate + |loads| * QuarterHour
      invariant |loads| == 0 || currentTime - QuarterHour < toDate
      invariant forall i :: 0 <= i < |loads| ==> loads[i].time == fromDate + i * QuarterHour
      invariant forall i :: 0 <= i < |loads| ==> loads[i].time < toDate
      invariant forall i :: 0 <= i < |loads| ==> loads[i].duration == QuarterHour
      invariant forall i :: 0 <= i < |loads| ==> IsStubLoadValue(loads[i].load)
      decreases toDate - currentTime
    {
      var draw: int :| 20 <= draw <= 150;
      loads := loads + [PredictedGridAssetLoad(currentTime, draw as real)];
      currentTime := currentTime + QuarterHour;
    }
    SlotCount(fromDate, toDate, |loads|);
  }

  /** A step count k that reaches toDate, and whose last step started before it, is the
      ceiling of the window length over 15 minutes. */
  lemma SlotCount(fromDate: int, toDate: int, k: nat)
    requires fromDate + k * QuarterHour >= toDate
    requires k == 0 || fromDate + (k - 1) * QuarterHour < toDate
    ensures k == QuarterHourSlots(fromDate, toDate)
  {
  }

  /** `audit_predicted_grid_asset_loads` of the stub: does nothing and never raises. */
  function StubAuditPredictedGridAssetLoads(loads: seq<PredictedGridAssetLoad>): (r: Outcome<Exception>)
    ensures r.Pass?
  {
    Pass
  }

  /** A run over the stub's output audits nothing and builds no event for an empty
      window, and otherwise builds an event with one interval per quarter hour. */
  lemma StubRun(
    fetch: (int, int) -> Result<seq<PredictedGridAssetLoad>, Exception>,
    fromDate: int, toDate: int, config: Config, today: Date, loads: seq<PredictedGridAssetLoad>)
    requires ValidDate(today)
    requires fetch(fromDate, toDate) == Success(loads)
    requires IsStubPrediction(loads, fromDate, toDate)
    ensures var r := GetCapacityLimitationEvent(PredictionActions(fetch, StubAuditPredictedGridAssetLoads), fromDate, toDate, config, today);
      && r.result.Success?
      && (toDate <= fromDate ==> r.result.value.None? && Audits(r.calls) == [])
      && (fromDate < toDate ==>
            && r.result.value.Some?
            && |r.result.value.value.intervals| == QuarterHourSlots(fromDate, toDate)
            && r.result.value.value.intervals[0].intervalPeriod == IntervalPeriod(fromDate, QuarterHour))
  {
  }
}
