/** The predicted load on a grid asset for one time slot, and the flex capacity it
    requires (src/models/predicted_load.py).

    Times and durations are whole minutes; loads are exact real numbers in kW.
 */
module PredictedLoad {
  import opened Wrappers

  /** Length of one prediction slot, in minutes. */
  const QuarterHour: int := 15

  /** A predicted load. The duration defaults to one quarter of an hour when it is not given. */
  datatype PredictedGridAssetLoad = PredictedGridAssetLoad(time: int, load: real, duration: int := QuarterHour)

  /** The right-hand side of Python's `==`: another predicted load, or an object of some other type. */
  datatype Comparand = LoadObject(value: PredictedGridAssetLoad) | OtherObject

  /** `__eq__`: value-based equality, false against any object that is not a predicted load. */
  function Equals(self: PredictedGridAssetLoad, other: Comparand): (r: bool)
    ensures r <==> other == LoadObject(self)
    ensures other.OtherObject? ==> !r
  {
    match other
    case LoadObject(o) => self.time == o.time && self.load == o.load && self.duration == o.duration
    case OtherObject => false
  }

  /** Leaving out the duration gives a 15-minute slot. */
  lemma DefaultDurationIsQuarterHour(time: int, load: real)
    ensures PredictedGridAssetLoad(time, load).duration == 15
    ensures PredictedGridAssetLoad(time, load) == PredictedGridAssetLoad(time, load, 15)
  {
  }

  /** `__eq__` is an equivalence relation on predicted loads. */
  lemma EqualsIsEquivalence(a: PredictedGridAssetLoad, b: PredictedGridAssetLoad, c: PredictedGridAssetLoad)
    ensures Equals(a, LoadObject(a))
    ensures Equals(a, LoadObject(b)) <==> Equals(b, LoadObject(a))
    ensures Equals(a, LoadObject(b)) && Equals(b, LoadObject(c)) ==> Equals(a, LoadObject(c))
  {
  }

  /** Flex capacity offered when the excess is just above zero, in kW. */
  const MinGuaranteedCapacity: real := 4.0
  /** Largest flex capacity a pod can offer, in kW. */
  const MaxCapacityOfPod: real := 22.0
  /** Excess load at which the offer reaches the pod maximum, in kW. */
  const MaxExcess: real := 50.0

  function Min(a: real, b: real): real
  {
    if a <= b then a else b
  }

  /** `flex_capacity_required`: zero when the load does not exceed the maximum capacity;
      otherwise the excess scaled linearly from 4 kW (no excess) to 22 kW (an excess of
      50 kW), capped at 22 kW. The signature allows `None`, but a value is always returned. */
  function FlexCapacityRequired(self: PredictedGridAssetLoad, maxCapacity: real): (r: Option<real>)
    ensures r.Some?
    ensures self.load <= maxCapacity <==> r.value == 0.0
    ensures self.load > maxCapacity ==> MinGuaranteedCapacity < r.value <= MaxCapacityOfPod
    ensures 0.0 <= r.value <= MaxCapacityOfPod
    ensures self.load - maxCapacity >= MaxExcess ==> r.value == MaxCapacityOfPod
  {
    var excessLoad := self.load - maxCapacity;
    if excessLoad <= 0.0 then
      Some(0.0)
    else
      var scaled := MinGuaranteedCapacity + (MaxCapacityOfPod - MinGuaranteedCapacity) * (excessLoad / MaxExcess);
      Some(Min(MaxCapacityOfPod, scaled))
  }

  /** The excess load that the linear part of the scaling maps to flex value `v`:
      the inverse of the line through (0, 4) and (50, 22). */
  function ExcessForFlex(v: real): real
  {
    (v - MinGuaranteedCapacity) * MaxExcess / (MaxCapacityOfPod - MinGuaranteedCapacity)
  }

  /** Below the cap the flex value determines the excess: the scaling is invertible on
      0 < excess < 50, and there it equals 4 + 18 * excess / 50. */
  lemma FlexLinearSegment(self: PredictedGridAssetLoad, maxCapacity: real)
    requires 0.0 < self.load - maxCapacity < MaxExcess
    ensures FlexCapacityRequired(self, maxCapacity).value == 4.0 + 18.0 * (self.load - maxCapacity) / 50.0
    ensures MinGuaranteedCapacity < FlexCapacityRequired(self, maxCapacity).value < MaxCapacityOfPod
    ensures ExcessForFlex(FlexCapacityRequired(self, maxCapacity).value) == self.load - maxCapacity
  {
  }

  /** For a fixed maximum capacity, a larger load never needs less flex. */
  lemma FlexMonotonic(a: PredictedGridAssetLoad, b: PredictedGridAssetLoad, maxCapacity: real)
    requires a.load <= b.load
    ensures FlexCapacityRequired(a, maxCapacity).value <= FlexCapacityRequired(b, maxCapacity).value
  {
  }
}
