/**
 * Linear interpolation of a sensor reading in the byte range [0, 255] onto
 * an output range [newMin, newMax] (byteToRatio and mapArduinoValue).
 * Python floats are modelled by exact reals.
 */
module RangeMapping {

  /** The largest value a sensor byte can take; the divisor of byteToRatio. */
  const ByteMax: real := 255.0

  /** byteToRatio: scales a byte value [0-255] to a ratio in [0, 1]. */
  function ByteToRatio(byteValue: real): (ratio: real)
    ensures ratio * ByteMax == byteValue
    ensures byteValue == 0.0 ==> ratio == 0.0
    ensures byteValue == ByteMax ==> ratio == 1.0
    ensures 0.0 <= byteValue <= ByteMax ==> 0.0 <= ratio <= 1.0
  {
    byteValue / ByteMax
  }

  /**
   * mapArduinoValue: interpolates an Arduino reading onto [newMin, newMax].
   * The two ends of the byte range land exactly on the two ends of the
   * output range.
   */
  function MapArduinoValue(arduinoValue: real, newMin: real, newMax: real): (newValue: real)
    ensures arduinoValue == 0.0 ==> newValue == newMin
    ensures arduinoValue == ByteMax ==> newValue == newMax
  {
    var ratio := ByteToRatio(arduinoValue);
    var fullRange := newMax - newMin;
    newMin + fullRange * ratio
  }

  /** The inverse interpolation: which reading an output value came from. */
  function UnmapValue(newValue: real, newMin: real, newMax: real): (arduinoValue: real)
    requires newMin != newMax
  {
    (newValue - newMin) * ByteMax / (newMax - newMin)
  }

  /** A ratio in [0, 1] is monotone in the byte value. */
  lemma RatioMonotone(a: real, b: real)
    requires a <= b
    ensures ByteToRatio(a) <= ByteToRatio(b)
  {
  }

  /** Scaling a full range by a ratio in [0, 1] stays within the range. */
  lemma ScaleWithin(fullRange: real, ratio: real)
    requires 0.0 <= ratio <= 1.0
    ensures 0.0 <= fullRange ==> 0.0 <= fullRange * ratio <= fullRange
    ensures fullRange < 0.0 ==> fullRange <= fullRange * ratio <= 0.0
  {
    if 0.0 <= fullRange {
      assert fullRange - fullRange * ratio == fullRange * (1.0 - ratio);
    } else {
      assert fullRange * ratio - fullRange == (-fullRange) * (1.0 - ratio);
      assert -(fullRange * ratio) == (-fullRange) * ratio;
    }
  }

  /** Scaling by a full range keeps the order of ratios, or reverses it for a negative range. */
  lemma ScaleOrder(fullRange: real, ratioA: real, ratioB: real)
    requires ratioA <= ratioB
    ensures 0.0 <= fullRange ==> fullRange * ratioA <= fullRange * ratioB
    ensures fullRange <= 0.0 ==> fullRange * ratioB <= fullRange * ratioA
  {
    if 0.0 <= fullRange {
      assert fullRange * ratioB - fullRange * ratioA == fullRange * (ratioB - ratioA);
    } else {
      assert fullRange * ratioA - fullRange * ratioB == (-fullRange) * (ratioB - ratioA);
    }
  }

  /**
   * Every reading in [0, 255] lands between the two ends of the output
   * range, whichever of them is the larger.
   */
  lemma MapWithinRange(arduinoValue: real, newMin: real, newMax: real)
    requires 0.0 <= arduinoValue <= ByteMax
    ensures newMin <= newMax ==> newMin <= MapArduinoValue(arduinoValue, newMin, newMax) <= newMax
    ensures newMax < newMin ==> newMax <= MapArduinoValue(arduinoValue, newMin, newMax) <= newMin
  {
    var ratio, fullRange := ByteToRatio(arduinoValue), newMax - newMin;
    assert MapArduinoValue(arduinoValue, newMin, newMax) == newMin + fullRange * ratio;
    ScaleWithin(fullRange, ratio);
  }

  /**
   * Bounds and order together: for readings a <= b in [0, 255] and an
   * increasing output range, lo <= map(a) <= map(b) <= hi.
   */
  lemma MapOrderPreserving(a: real, b: real, newMin: real, newMax: real)
    requires 0.0 <= a <= b <= ByteMax
    requires newMin <= newMax
    ensures newMin <= MapArduinoValue(a, newMin, newMax)
    ensures MapArduinoValue(a, newMin, newMax) <= MapArduinoValue(b, newMin, newMax)
    ensures MapArduinoValue(b, newMin, newMax) <= newMax
  {
    MapWithinRange(a, newMin, newMax);
    MapWithinRange(b, newMin, newMax);
    RatioMonotone(a, b);
    var ratioA, ratioB, fullRange := ByteToRatio(a), ByteToRatio(b), newMax - newMin;
    assert MapArduinoValue(a, newMin, newMax) == newMin + fullRange * ratioA;
    assert MapArduinoValue(b, newMin, newMax) == newMin + fullRange * ratioB;
    ScaleOrder(fullRange, ratioA, ratioB);
  }

  /** With a reversed output range the mapping is order-reversing. */
  lemma MapOrderReversing(a: real, b: real, newMin: real, newMax: real)
    requires a <= b
    requires newMax <= newMin
    ensures MapArduinoValue(b, newMin, newMax) <= MapArduinoValue(a, newMin, newMax)
  {
    RatioMonotone(a, b);
    var ratioA, ratioB, fullRange := ByteToRatio(a), ByteToRatio(b), newMax - newMin;
    ScaleOrder(fullRange, ratioA, ratioB);
    calc {
      MapArduinoValue(b, newMin, newMax);
      newMin + fullRange * ratioB;
    <= newMin + fullRange * ratioA;
      MapArduinoValue(a, newMin, newMax);
    }
  }

  /** Mapping a reading and mapping it back gives the reading again. */
  lemma UnmapMap(arduinoValue: real, newMin: real, newMax: real)
    requires newMin != newMax
    ensures UnmapValue(MapArduinoValue(arduinoValue, newMin, newMax), newMin, newMax) == arduinoValue
  {
    var ratio := ByteToRatio(arduinoValue);
    var fullRange := newMax - newMin;
    assert MapArduinoValue(arduinoValue, newMin, newMax) - newMin == fullRange * ratio;
    assert fullRange * ratio * ByteMax == fullRange * arduinoValue;
  }

  /** Every output value is the image of exactly the reading UnmapValue gives. */
  lemma MapUnmap(newValue: real, newMin: real, newMax: real)
    requires newMin != newMax
    ensures MapArduinoValue(UnmapValue(newValue, newMin, newMax), newMin, newMax) == newValue
  {
    var fullRange := newMax - newMin;
    var reading := UnmapValue(newValue, newMin, newMax);
    assert reading * fullRange == (newValue - newMin) * ByteMax;
    assert fullRange * ByteToRatio(reading) == newValue - newMin;
  }
}
