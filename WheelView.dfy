/** The wheel widget's state and the operations that change it: the public
    configuration setters, the deferred image generation, the layout
    callback, the touch handler, the fling start and one fling tick. */
module WheelView {
  import opened WheelGeometry
  import opened WheelGesture
  import opened WheelImage

  /** A pointer event. Down and Move carry the angle of the pointer about
      the wheel's centre, in degrees; any other action carries nothing. */
  datatype TouchAction = Down(angle: real) | Move(angle: real) | Up | OtherAction

  /** A call of the settle listener: the section under the marker and the
      wheel's rotation in whole degrees. */
  datatype SettleEvent = SettleEvent(sectionIndex: int, rotation: int)

  /** How a fling tick ends: it reposted itself, it settled (calling the
      listener if one is set), or it failed because the listener asked for
      the selected section of a wheel that has no sections. */
  datatype TickOutcome = Reposted | Settled | NoSections

  /** How a call that may throw ends. */
  datatype Outcome = Done | Thrown(error: WheelError)

  /** Whether `list` may become the wheel's sections: present, with a length
      between the two bounds. */
  predicate AcceptedSections(list: Option<seq<Section>>, minSections: int, maxSections: int)
  {
    list.Some? && minSections <= |list.value| <= maxSections
  }

  /** Every length between the bounds is accepted and one past either bound is
      refused, as is a missing list. */
  lemma SectionCountBounds(sections: seq<Section>, minSections: int, maxSections: int)
    ensures AcceptedSections(Some(sections), minSections, maxSections)
            <==> minSections <= |sections| <= maxSections
    ensures |sections| == minSections - 1 ==> !AcceptedSections(Some(sections), minSections, maxSections)
    ensures |sections| == maxSections + 1 ==> !AcceptedSections(Some(sections), minSections, maxSections)
    ensures !AcceptedSections(None, minSections, maxSections)
  {
  }

  class PrizeWheelView {
    /** The bounds on the number of sections. */
    const minSections: int
    const maxSections: int
    /** Slot q records that quadrant q was touched since the last pointer-down;
        slot 0 is never used. */
    const quadrantTouched: array<bool>

    /** The view's size, 0 until the first layout that knows it. */
    var wheelHeight: int
    var wheelWidth: int
    /** False from a pointer-down until the next pointer-up: a running fling
        stops rotating. */
    var allowRotating: bool
    /** The accumulated rotation of the wheel image, in degrees. */
    var rotation: real
    /** The touch handler's own state: the last pointer angle and the size it
        was given at layout, as reals. */
    var touchStartAngle: real
    var touchWidth: real
    var touchHeight: real

    var sections: Option<seq<Section>>
    /** The marker's offset in degrees. */
    var markerOffset: int
    /** Set when generation was asked for before the size was known. */
    var canGenerateWheel: bool
    var borderLineColor: int
    var borderLineThickness: int
    var separatorLineColor: int
    var separatorLineThickness: int
    var hasListener: bool
    /** Every call the settle listener has received, oldest first. */
    var settledEvents: seq<SettleEvent>
    /** The generated image on display; None while the default one is shown. */
    var image: Option<seq<DrawCommand>>

    ghost predicate Valid()
      reads this
    {
      quadrantTouched.Length == 5
      && 1 <= minSections <= maxSections
      && 0 <= wheelHeight && 0 <= wheelWidth
      && (sections.Some? ==> minSections <= |sections.value| <= maxSections)
      && 0 <= markerOffset < 360
      && 0 <= borderLineThickness && 0 <= separatorLineThickness
    }

    /** A wheel with no size, no sections, no lines, no listener, marker at
        offset 0, rotation allowed and no quadrant touched. */
    constructor (minSections: int, maxSections: int)
      requires 1 <= minSections <= maxSections
      ensures Valid() && fresh(quadrantTouched)
      ensures this.minSections == minSections && this.maxSections == maxSections
      ensures forall i :: 0 <= i < quadrantTouched.Length ==> !quadrantTouched[i]
      ensures wheelHeight == 0 && wheelWidth == 0 && allowRotating && rotation == 0.0
      ensures touchStartAngle == 0.0 && touchWidth == 0.0 && touchHeight == 0.0
      ensures sections == None && markerOffset == 0 && !canGenerateWheel
      ensures borderLineColor == NoColor && borderLineThickness == 10
      ensures separatorLineColor == NoColor && separatorLineThickness == 10
      ensures !hasListener && settledEvents == [] && image == None
    {
      this.minSections := minSections;
      this.maxSections := maxSections;
      quadrantTouched := new bool[5](_ => false);
      wheelHeight, wheelWidth := 0, 0;
      allowRotating := true;
      rotation := 0.0;
      touchStartAngle, touchWidth, touchHeight := 0.0, 0.0, 0.0;
      sections := None;
      markerOffset := 0;
      canGenerateWheel := false;
      borderLineColor, borderLineThickness := NoColor, 10;
      separatorLineColor, separatorLineThickness := NoColor, 10;
      hasListener := false;
      settledEvents := [];
      image := None;
    }

    /** Stores the sections when their number is within the bounds; otherwise
        throws and keeps the sections it had. */
    method SetWheelSections(list: Option<seq<Section>>) returns (r: Outcome)
      requires Valid()
      modifies this`sections
      ensures Valid()
      ensures r == Done <==> AcceptedSections(list, minSections, maxSections)
      ensures r != Done ==> r == Thrown(InvalidWheelSections) && sections == old(sections)
      ensures r == Done ==> sections == list
    {
      if list.None? || |list.value| < minSections || |list.value| > maxSections {
        return Thrown(InvalidWheelSections);
      }
      sections := list;
      r := Done;
    }

    method SetMarkerPosition(offset: int)
      requires Valid() && 0 <= offset < 360
      modifies this`markerOffset
      ensures Valid() && markerOffset == offset
    {
      markerOffset := offset;
    }

    method SetWheelBorderLineColor(color: int)
      requires Valid()
      modifies this`borderLineColor
      ensures Valid() && borderLineColor == color
    {
      borderLineColor := color;
    }

    /** A negative thickness is ignored. */
    method SetWheelBorderLineThickness(thickness: int)
      requires Valid()
      modifies this`borderLineThickness
      ensures Valid()
      ensures borderLineThickness == if thickness >= 0 then thickness else old(borderLineThickness)
    {
      if thickness >= 0 {
        borderLineThickness := thickness;
      }
    }

    method SetWheelSeparatorLineColor(color: int)
      requires Valid()
      modifies this`separatorLineColor
      ensures Valid() && separatorLineColor == color
    {
      separatorLineColor := color;
    }

    /** A negative thickness is ignored. */
    method SetWheelSeparatorLineThickness(thickness: int)
      requires Valid()
      modifies this`separatorLineThickness
      ensures Valid()
      ensures separatorLineThickness == if thickness >= 0 then thickness else old(separatorLineThickness)
    {
      if thickness >= 0 {
        separatorLineThickness := thickness;
      }
    }

    /** Sets or removes the settle listener. */
    method SetWheelSettledListener(present: bool)
      requires Valid()
      modifies this`hasListener
      ensures Valid() && hasListener == present
    {
      hasListener := present;
    }

    function CurrentStyle(): Style
      reads this`borderLineColor, this`borderLineThickness, this`separatorLineColor, this`separatorLineThickness
    {
      Style(borderLineColor, borderLineThickness, separatorLineColor, separatorLineThickness)
    }

    /** The image generation would produce now; `decoded` maps each drawable
        resource id that decodes to its bitmap. */
    function Generated(decoded: map<int, Bitmap>): Result<seq<DrawCommand>>
      reads this`sections, this`wheelWidth, this`wheelHeight
      reads this`borderLineColor, this`borderLineThickness, this`separatorLineColor, this`separatorLineThickness
    {
      RenderWheel(sections, wheelWidth, wheelHeight, CurrentStyle(), decoded)
    }

    /** Builds the wheel image from the sections and shows it; on any error
        nothing new is shown. */
    method GenerateWheelImage(decoded: map<int, Bitmap>) returns (r: Outcome)
      requires Valid()
      modifies this`image
      ensures Valid()
      ensures Generated(decoded).Ok? ==> r == Done && image == Some(Generated(decoded).value)
      ensures Generated(decoded).Err? ==> r == Thrown(Generated(decoded).error) && image == old(image)
    {
      if sections.None? {
        return Thrown(InvalidWheelSections);
      }
      if wheelWidth <= 0 || wheelHeight <= 0 {
        return Thrown(InvalidDimensions);
      }
      var arcs := DrawSections(sections.value, decoded);
      if arcs.Err? {
        return Thrown(arcs.error);
      }
      var result := arcs.value;
      var lines: seq<DrawCommand> := [];
      if separatorLineColor != NoColor {
        lines := DrawSeparators(|sections.value|, wheelWidth, wheelHeight,
                                separatorLineColor, separatorLineThickness);
      }
      var border: seq<DrawCommand> := [];
      if borderLineColor != NoColor {
        border := [Border(wheelWidth, wheelHeight, borderLineColor, borderLineThickness)];
      }
      result := result + lines + border;
      assert Generated(decoded) == Ok(result);
      image := Some(result);
      r := Done;
    }

    /** Generates now if the height is known; otherwise remembers to generate
        at layout. */
    method GenerateWheel(decoded: map<int, Bitmap>) returns (r: Outcome)
      requires Valid()
      modifies this`canGenerateWheel, this`image
      ensures Valid()
      ensures old(wheelHeight) == 0 ==> r == Done && canGenerateWheel && image == old(image)
      ensures old(wheelHeight) != 0 ==> canGenerateWheel == old(canGenerateWheel)
      ensures old(wheelHeight) != 0 && Generated(decoded).Ok? ==> r == Done && image == Some(Generated(decoded).value)
      ensures old(wheelHeight) != 0 && Generated(decoded).Err? ==> r == Thrown(Generated(decoded).error) && image == old(image)
    {
      if wheelHeight == 0 {
        canGenerateWheel := true;
        r := Done;
      } else {
        r := GenerateWheelImage(decoded);
      }
    }

    /** The layout callback with the view's current size. Only while the size
        is still unknown does it take the size. It then scales the default
        image to the smaller side, which fails when that side is 0; otherwise
        it hands the size to the touch handler and runs a generation that was
        asked for earlier. */
    method OnGlobalLayout(height: int, width: int, decoded: map<int, Bitmap>) returns (r: Outcome)
      requires Valid() && 0 <= height && 0 <= width
      modifies this`wheelHeight, this`wheelWidth, this`touchWidth, this`touchHeight, this`image
      ensures Valid()
      ensures old(wheelHeight != 0 && wheelWidth != 0) ==>
        r == Done && wheelHeight == old(wheelHeight) && wheelWidth == old(wheelWidth)
        && touchWidth == old(touchWidth) && touchHeight == old(touchHeight) && image == old(image)
      ensures old(wheelHeight == 0 || wheelWidth == 0) ==>
        wheelHeight == height && wheelWidth == width
      ensures old(wheelHeight == 0 || wheelWidth == 0) && (height == 0 || width == 0) ==>
        r == Thrown(InvalidDimensions)
        && touchWidth == old(touchWidth) && touchHeight == old(touchHeight) && image == old(image)
      ensures old(wheelHeight == 0 || wheelWidth == 0) && height != 0 && width != 0 ==>
        touchWidth == width as real && touchHeight == height as real
      ensures old(wheelHeight == 0 || wheelWidth == 0) && height != 0 && width != 0 && !canGenerateWheel ==>
        r == Done && image == old(image)
      ensures old(wheelHeight == 0 || wheelWidth == 0) && height != 0 && width != 0 && canGenerateWheel
              && Generated(decoded).Ok? ==>
        r == Done && image == Some(Generated(decoded).value)
      ensures old(wheelHeight == 0 || wheelWidth == 0) && height != 0 && width != 0 && canGenerateWheel
              && Generated(decoded).Err? ==>
        r == Thrown(Generated(decoded).error) && image == old(image)
    {
      r := Done;
      if wheelHeight == 0 || wheelWidth == 0 {
        wheelHeight := height;
        wheelWidth := width;
        if Min(wheelWidth, wheelHeight) == 0 {
          // the default image scaled to a zero side cannot be allocated
          return Thrown(InvalidDimensions);
        }
        touchWidth, touchHeight := width as real, height as real;
        if canGenerateWheel {
          r := GenerateWheelImage(decoded);
        }
      }
    }

    /** Clears every slot of the quadrant history. */
    method ResetQuadrants()
      requires Valid()
      modifies quadrantTouched
      ensures Valid()
      ensures forall i :: 0 <= i < quadrantTouched.Length ==> !quadrantTouched[i]
    {
      var i := 0;
      while i < quadrantTouched.Length
        invariant 0 <= i <= quadrantTouched.Length
        invariant forall j :: 0 <= j < i ==> !quadrantTouched[j]
      {
        quadrantTouched[i] := false;
        i := i + 1;
      }
    }

    /** The quadrant of a touch at (x, y) in view coordinates, measured about
        the centre of the size the touch handler was given. */
    function TouchQuadrant(x: real, y: real): (q: int)
      reads this
      ensures 1 <= q <= 4
    {
      Quadrant(x - touchWidth / 2.0, touchHeight - y - touchHeight / 2.0)
    }

    /** The quadrant of a fling end point, measured about the centre of the
        view's integer size, halved by integer division. */
    function FlingQuadrant(x: real, y: real): (q: int)
      reads this
      ensures 1 <= q <= 4
    {
      Quadrant(x - (wheelWidth / 2) as real, wheelHeight as real - y - (wheelHeight / 2) as real)
    }

    /** The touch handler. A pointer-down clears the quadrant history, takes
        the start angle and stops a running fling from rotating; a move turns
        the wheel by the start angle less the new angle and takes the new
        angle; a pointer-up allows rotation again. Whatever the action, the
        touched quadrant's slot is set and no other slot changes. */
    method OnTouch(action: TouchAction, x: real, y: real) returns (consumed: bool)
      requires Valid()
      modifies this`touchStartAngle, this`allowRotating, this`rotation, quadrantTouched
      ensures Valid() && consumed
      ensures forall i :: 0 <= i < quadrantTouched.Length ==>
        quadrantTouched[i] == (i == TouchQuadrant(x, y) || (!action.Down? && old(quadrantTouched[i])))
      ensures quadrantTouched[0] == (!action.Down? && old(quadrantTouched[0]))
      ensures action.Down? ==>
        touchStartAngle == action.angle && !allowRotating && rotation == old(rotation)
      ensures action.Move? ==>
        rotation == old(rotation) + (old(touchStartAngle) - action.angle)
        && touchStartAngle == action.angle && allowRotating == old(allowRotating)
      ensures action.Up? ==>
        allowRotating && rotation == old(rotation) && touchStartAngle == old(touchStartAngle)
      ensures action.OtherAction? ==>
        allowRotating == old(allowRotating) && rotation == old(rotation)
        && touchStartAngle == old(touchStartAngle)
    {
      match action {
        case Down(angle) =>
          ResetQuadrants();
          touchStartAngle := angle;
          allowRotating := false;
        case Move(angle) =>
          rotation := rotation + (touchStartAngle - angle);
          touchStartAngle := angle;
        case Up =>
          allowRotating := true;
        case OtherAction =>
      }
      var q := TouchQuadrant(x, y);
      quadrantTouched[q] := true;
      consumed := true;
    }

    /** The fling handler: classifies both ends by quadrant and posts a fling
        whose velocity follows the direction-correction rule. */
    method OnFling(x1: real, y1: real, x2: real, y2: real, velocityX: real, velocityY: real)
      returns (fling: FlingRunnable)
      requires Valid()
      ensures fresh(fling)
      ensures fling.velocity ==
        InitialVelocity(FlingQuadrant(x1, y1), FlingQuadrant(x2, y2), velocityX, velocityY, quadrantTouched[3])
    {
      var q1 := FlingQuadrant(x1, y1);
      var q2 := FlingQuadrant(x2, y2);
      fling := new FlingRunnable(InitialVelocity(q1, q2, velocityX, velocityY, quadrantTouched[3]));
    }

    /** What the settle listener is told when the rounded decomposed angle is
        `rounded`: the section under the marker and the rotation. */
    function SettleEventAt(rounded: int): (e: SettleEvent)
      requires Valid() && sections.Some? && -180 <= rounded <= 180
      reads this
      ensures 0 <= e.sectionIndex < |sections.value| && 1 <= e.rotation <= 360
    {
      var current := CurrentRotation(rounded);
      SettleEvent(SelectedSectionIndex(current, markerOffset, |sections.value|), current)
    }
  }

  /** A posted fling. Each run is one tick; running it again is what the
      platform does when the tick reposts it. */
  class FlingRunnable {
    var velocity: real

    constructor (velocity: real)
      ensures this.velocity == velocity
    {
      this.velocity := velocity;
    }

    /** One tick. While the speed is above the threshold and the wheel allows
        rotation, it turns the wheel by velocity / 75, damps the velocity and
        reposts. Otherwise it does not rotate and settles, telling the
        listener, if one is set, the selected section and the rotation; this
        happens also when a pointer-down has just cleared allowRotating.
        `rounded` is the wheel's angle decomposed from its rotation matrix and
        rounded to whole degrees. */
    method Run(wheel: PrizeWheelView, rounded: int) returns (outcome: TickOutcome)
      requires wheel.Valid() && -180 <= rounded <= 180
      modifies this, wheel`rotation, wheel`settledEvents
      ensures wheel.Valid()
      ensures old(Abs(velocity) > SettleThreshold && wheel.allowRotating) ==>
        outcome == Reposted
        && wheel.rotation == old(wheel.rotation) + old(velocity) / VelocityPerDegree
        && velocity == Dampen(old(velocity))
        && wheel.settledEvents == old(wheel.settledEvents)
      ensures !old(Abs(velocity) > SettleThreshold && wheel.allowRotating) ==>
        velocity == old(velocity) && wheel.rotation == old(wheel.rotation)
      ensures !old(Abs(velocity) > SettleThreshold && wheel.allowRotating) && !wheel.hasListener ==>
        outcome == Settled && wheel.settledEvents == old(wheel.settledEvents)
      ensures !old(Abs(velocity) > SettleThreshold && wheel.allowRotating) && wheel.hasListener
              && wheel.sections.None? ==>
        outcome == NoSections && wheel.settledEvents == old(wheel.settledEvents)
      ensures !old(Abs(velocity) > SettleThreshold && wheel.allowRotating) && wheel.hasListener
              && wheel.sections.Some? ==>
        outcome == Settled && wheel.settledEvents == old(wheel.settledEvents) + [wheel.SettleEventAt(rounded)]
    {
      if Abs(velocity) > SettleThreshold && wheel.allowRotating {
        wheel.rotation := wheel.rotation + velocity / VelocityPerDegree;
        velocity := velocity / FlingDampening;
        return Reposted;
      }
      if wheel.hasListener {
        if wheel.sections.None? {
          return NoSections;
        }
        wheel.settledEvents := wheel.settledEvents + [wheel.SettleEventAt(rounded)];
      }
      outcome := Settled;
    }
  }
}
