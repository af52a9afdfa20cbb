/** `AircraftDataPoint`: the component on every spawned point. It remembers its
    record and, while selected, breathes around a base scale captured in `Start`. */
module DataPoints {
  import opened Common
  import opened AircraftData

  /** The field initialiser of `pulseAmount`: 15% bigger at the peak of the pulse. */
  const DefaultPulseAmount: real := 0.15

  class AircraftDataPoint {
    /** `record`; `None` while no record has been assigned. */
    var record: Option<AircraftRecord>
    /** How far the breathing pulse grows or shrinks the point, as a fraction of its base scale. */
    const pulseAmount: real
    var baseScale: Vec3
    var isHighlighted: bool
    /** `transform.localScale`. */
    var localScale: Vec3

    /** A freshly instantiated point prefab: scale `prefabScale`, the prefab's
        `pulseAmount` (`DefaultPulseAmount` unless overridden), no record, not
        highlighted, and a zero base scale until `Start`. */
    constructor (prefabScale: Vec3, pulseAmount: real)
      ensures record.None? && this.pulseAmount == pulseAmount && !isHighlighted
      ensures baseScale == Vec3(0.0, 0.0, 0.0) && localScale == prefabScale
    {
      record := None;
      this.pulseAmount := pulseAmount;
      baseScale := Vec3(0.0, 0.0, 0.0);
      isHighlighted := false;
      localScale := prefabScale;
    }

    /** `Start`: captures the scale the plot assigned as the base scale. */
    method Start()
      modifies this`baseScale
      ensures baseScale == localScale
    {
      baseScale := localScale;
    }

    /** `SetHighlighted`: stores the flag, and on deselection puts the base scale back at once. */
    method SetHighlighted(value: bool)
      modifies this`isHighlighted, this`localScale
      ensures isHighlighted == value
      ensures localScale == if value then old(localScale) else baseScale
    {
      isHighlighted := value;
      if !value {
        localScale := baseScale;
      }
    }

    /** `Update`, one frame. `wave` is `Mathf.Sin(Time.time * pulseSpeed)`, given
        as an input. Unselected, the point is forced back to its base scale;
        selected, it is scaled by `1 + wave * pulseAmount`. */
    method Update(wave: real)
      modifies this`localScale
      ensures !isHighlighted ==> localScale == baseScale
      ensures isHighlighted ==> localScale == baseScale.Scale(1.0 + wave * pulseAmount)
    {
      if !isHighlighted {
        if localScale != baseScale {
          localScale := baseScale;
        }
        return;
      }
      var scaleFactor := 1.0 + wave * pulseAmount;
      localScale := baseScale.Scale(scaleFactor);
    }
  }
}
