/** One load-cell scale: calibration of raw voltage-ratio samples, the window
    of calibrated readings it updates in place, and the last stable weight.
    The hardware handle is not modelled: each raw sample, or the failure to
    read one, is passed in by the caller. */
module Scales {
  import opened Filter

  /** A failure reported by the sensor SDK, carried with its return code. */
  datatype Error = Phidget(code: int)

  datatype Result<T> = Ok(value: T) | Err(error: Error)

  /** A calibrated reading tagged with whether the window was stable once the
      reading had been pushed. */
  datatype Weight = Stable(value: real) | Unstable(value: real)

  /** What a stability check may report; no check ever reports one. */
  datatype DataAction = Served | RanOut | Refilled

  class Scale {
    const gain: real
    const offset: real
    var weightBuffer: seq<real>
    var lastStableWeight: Option<real>

    ghost predicate Valid()
      reads this
    {
      |weightBuffer| <= BUFFER_LENGTH
    }

    /** A freshly opened scale: empty window, no last stable weight. */
    constructor (gain: real, offset: real)
      ensures Valid()
      ensures this.gain == gain && this.offset == offset
      ensures weightBuffer == [] && lastStableWeight == None
    {
      this.gain := gain;
      this.offset := offset;
      weightBuffer := [];
      lastStableWeight := None;
    }

    /** Calibrates a raw sample with `raw * gain - offset`; a failed read
        stays a failure with the same error. */
    function GetReading(raw: Result<real>): (r: Result<real>)
      ensures r.Ok? <==> raw.Ok?
      ensures raw.Err? ==> r.error == raw.error
      ensures raw.Ok? ==> r.value + offset == raw.value * gain
    {
      match raw
      case Ok(x) => Ok(x * gain - offset)
      case Err(e) => Err(e)
    }

    /** Pushes one reading into the window, evicting the oldest when full. */
    method UpdateBuffer(weight: real)
      requires Valid()
      modifies this`weightBuffer
      ensures Valid()
      ensures weightBuffer == Pushed(old(weightBuffer), weight)
      ensures weightBuffer == Newest(old(weightBuffer) + [weight], BUFFER_LENGTH)
    {
      if |weightBuffer| < BUFFER_LENGTH {
        weightBuffer := weightBuffer + [weight];
      } else {
        weightBuffer := weightBuffer[1..];
        weightBuffer := weightBuffer + [weight];
      }
    }

    /** Reads, calibrates and pushes one sample, and tags it with the
        stability of the window after the push. A failed read is returned as
        it is and leaves the window untouched. */
    method GetWeight(raw: Result<real>) returns (r: Result<Weight>)
      requires Valid()
      modifies this`weightBuffer
      ensures Valid()
      ensures raw.Err? ==> r == Err(raw.error) && weightBuffer == old(weightBuffer)
      ensures raw.Ok? ==>
        var reading := GetReading(raw).value;
        weightBuffer == Pushed(old(weightBuffer), reading) &&
        r.Ok? && r.value.value == reading &&
        (r.value.Stable? <==> IsStable(weightBuffer))
    {
      var reading := GetReading(raw);
      if reading.Err? {
        return Err(reading.error);
      }
      UpdateBuffer(reading.value);
      if IsStable(weightBuffer) {
        r := Ok(Stable(reading.value));
      } else {
        r := Ok(Unstable(reading.value));
      }
    }

    /** Moves the last stable weight as NextLastStable says and reports
        nothing; the window is left as it is. */
    method CheckLastStable() returns (action: Option<DataAction>)
      requires Valid()
      modifies this`lastStableWeight
      ensures Valid()
      ensures action == None
      ensures lastStableWeight == NextLastStable(old(lastStableWeight), weightBuffer)
      ensures old(lastStableWeight).Some? ==> lastStableWeight.Some?
    {
      if IsStable(weightBuffer) {
        var last := weightBuffer[|weightBuffer| - 1];
        match lastStableWeight
        case Some(lastStable) =>
          if Abs(lastStable - last) > MAX_NOISE {
            lastStableWeight := Some(last);
          }
        case None =>
          lastStableWeight := Some(last);
      }
      action := None;
    }
  }
}
