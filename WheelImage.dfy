/** The wheel image as an ordered list of draw commands: one arc per section,
    then optional separator lines, then an optional border ring. Pixels are
    not modelled; a command records what is drawn, where and with what. */
module WheelImage {

  datatype Option<T> = None | Some(value: T)

  /** A decoded pixel buffer, known only by an identity. */
  datatype Bitmap = Bitmap(id: nat)

  /** A wheel section: a colour resource, a bitmap that may be missing, or a
      drawable resource id that still has to be decoded. */
  datatype Section =
    | ColorSection(color: int)
    | BitmapSection(bitmap: Option<Bitmap>)
    | DrawableSection(drawableRes: int)

  /** The exceptions the wheel raises. `section` is the index of the section
      whose data could not be turned into a bitmap. */
  datatype WheelError =
    | InvalidWheelSections
    | InvalidWheelSectionData(section: nat)
    | InvalidDimensions

  datatype Result<T> = Ok(value: T) | Err(error: WheelError)

  /** One drawing step on the result canvas. Angles are in degrees. A masked
      bitmap is the section's bitmap cut down to the arc by a freshly cleared
      mask holding only that arc. */
  datatype DrawCommand =
    | FillArc(startAngle: real, sweepAngle: real, color: int)
    | MaskedBitmap(startAngle: real, sweepAngle: real, bitmap: Bitmap)
    | SeparatorLine(centerX: int, centerY: int, radius: int, angle: real, color: int, thickness: int)
    | BorderCircle(centerX: int, centerY: int, radius: int, color: int, thickness: int)

  /** The sentinel colour that means "no line of this kind". */
  const NoColor: int := -1

  /** The border and separator options of a wheel. */
  datatype Style = Style(borderColor: int, borderThickness: int,
                         separatorColor: int, separatorThickness: int)

  /** Whether a section can be drawn: a colour always, a bitmap section when
      its bitmap is present, a drawable when `decoded` resolves its id. */
  predicate Drawable(s: Section, decoded: map<int, Bitmap>)
  {
    match s
    case ColorSection(_) => true
    case BitmapSection(b) => b.Some?
    case DrawableSection(res) => res in decoded
  }

  /** The angle at which section i of n starts: the sections share the
      circle equally, laid out one after another from 0 degrees. */
  function ArcStart(i: nat, n: nat): (a: real)
    requires n > 0
    ensures i <= n ==> 0.0 <= a <= 360.0
    ensures a * (n as real) == 360.0 * (i as real)
  {
    (i as real) * (360.0 / n as real)
  }

  /** The command that draws section i of n. */
  function SectionDraw(s: Section, i: nat, n: nat, decoded: map<int, Bitmap>): DrawCommand
    requires n > 0 && Drawable(s, decoded)
  {
    var sweep := 360.0 / n as real;
    match s
    case ColorSection(c) => FillArc(ArcStart(i, n), sweep, c)
    case BitmapSection(b) => MaskedBitmap(ArcStart(i, n), sweep, b.value)
    case DrawableSection(res) => MaskedBitmap(ArcStart(i, n), sweep, decoded[res])
  }

  /** The index of the first section that cannot be drawn, or the length of
      the list when every section can. */
  function FirstFailure(sections: seq<Section>, decoded: map<int, Bitmap>): (k: nat)
    ensures k <= |sections|
    ensures forall j :: 0 <= j < k ==> Drawable(sections[j], decoded)
    ensures k < |sections| ==> !Drawable(sections[k], decoded)
  {
    if sections == [] then 0
    else if !Drawable(sections[0], decoded) then 0
    else 1 + FirstFailure(sections[1..], decoded)
  }

  /** The arcs of the wheel: the first undrawable section is reported;
      otherwise command i draws section i over its own arc. */
  function SectionCommands(sections: seq<Section>, decoded: map<int, Bitmap>): Result<seq<DrawCommand>>
  {
    var n := |sections|;
    var k := FirstFailure(sections, decoded);
    if k < n then Err(InvalidWheelSectionData(k))
    else Ok(seq(n, i requires 0 <= i < n => SectionDraw(sections[i], i, n, decoded)))
  }

  /** Command i of a successful layout draws section i over arc i. */
  lemma CommandAt(sections: seq<Section>, decoded: map<int, Bitmap>, i: nat)
    requires SectionCommands(sections, decoded).Ok? && i < |sections|
    ensures |SectionCommands(sections, decoded).value| == |sections|
    ensures Drawable(sections[i], decoded)
    ensures SectionCommands(sections, decoded).value[i] == SectionDraw(sections[i], i, |sections|, decoded)
  {
    assert FirstFailure(sections, decoded) == |sections|;
  }

  /** One arc per section: colour sections are filled, the others masked. */
  lemma ArcsFollowSections(sections: seq<Section>, decoded: map<int, Bitmap>)
    requires SectionCommands(sections, decoded).Ok?
    ensures var cmds := SectionCommands(sections, decoded).value;
      |cmds| == |sections|
      && (forall i :: 0 <= i < |cmds| ==> (cmds[i].FillArc? <==> sections[i].ColorSection?))
      && (forall i :: 0 <= i < |cmds| ==> cmds[i].FillArc? || cmds[i].MaskedBitmap?)
  {
    var cmds := SectionCommands(sections, decoded).value;
    assert FirstFailure(sections, decoded) == |sections|;
    forall i | 0 <= i < |cmds|
      ensures cmds[i].FillArc? <==> sections[i].ColorSection?
      ensures cmds[i].FillArc? || cmds[i].MaskedBitmap?
    {
      CommandAt(sections, decoded, i);
    }
  }

  /** The arcs tile the circle: the first starts at 0 degrees, each starts
      where the previous one ends, and the last ends at 360. */
  lemma ArcsTileTheCircle(sections: seq<Section>, decoded: map<int, Bitmap>)
    requires SectionCommands(sections, decoded).Ok? && |sections| > 0
    ensures var cmds := SectionCommands(sections, decoded).value;
      |cmds| == |sections|
      && cmds[0].startAngle == 0.0
      && cmds[|cmds| - 1].startAngle + cmds[|cmds| - 1].sweepAngle == 360.0
      && (forall i :: 0 < i < |cmds| ==>
            cmds[i].startAngle == cmds[i - 1].startAngle + cmds[i - 1].sweepAngle)
  {
    var n := |sections|;
    var cmds := SectionCommands(sections, decoded).value;
    CommandAt(sections, decoded, 0);
    CommandAt(sections, decoded, n - 1);
    ArcStartStep(n - 1, n);
    forall i | 0 < i < n
      ensures cmds[i].startAngle == cmds[i - 1].startAngle + cmds[i - 1].sweepAngle
    {
      CommandAt(sections, decoded, i);
      CommandAt(sections, decoded, i - 1);
      ArcStartStep(i - 1, n);
    }
  }

  /** Consecutive arcs meet: arc i + 1 starts one sweep after arc i. */
  lemma ArcStartStep(i: nat, n: nat)
    requires n > 0
    ensures ArcStart(i + 1, n) == ArcStart(i, n) + 360.0 / n as real
  {
  }

  /** A section that cannot be drawn after a run of drawable ones is the
      first failure. */
  lemma FailureAt(sections: seq<Section>, decoded: map<int, Bitmap>, i: nat)
    requires i < |sections| && !Drawable(sections[i], decoded)
    requires forall j :: 0 <= j < i ==> Drawable(sections[j], decoded)
    ensures FirstFailure(sections, decoded) == i
  {
  }

  /** The arcs, drawn as the source does: a running start angle grows by the
      sweep after every section, and the loop stops at the first section
      whose bitmap is missing or whose drawable does not decode. */
  method DrawSections(sections: seq<Section>, decoded: map<int, Bitmap>) returns (r: Result<seq<DrawCommand>>)
    ensures r == SectionCommands(sections, decoded)
  {
    var n := |sections|;
    if n == 0 {
      assert FirstFailure(sections, decoded) == 0;
      assert |SectionCommands(sections, decoded).value| == 0;
      return Ok([]);
    }
    var startAngle := 0.0;
    var sweepAngle := 360.0 / n as real;
    var commands: seq<DrawCommand> := [];
    var i := 0;
    while i < n
      invariant 0 <= i <= n
      invariant startAngle == ArcStart(i, n)
      invariant forall j :: 0 <= j < i ==> Drawable(sections[j], decoded)
      invariant |commands| == i
      invariant forall j :: 0 <= j < i ==> commands[j] == SectionDraw(sections[j], j, n, decoded)
    {
      var section := sections[i];
      if section.ColorSection? {
        commands := commands + [FillArc(startAngle, sweepAngle, section.color)];
        ArcStartStep(i, n);
        startAngle := startAngle + sweepAngle;
        i := i + 1;
        continue;
      }
      var bitmap: Bitmap;
      if section.BitmapSection? {
        if section.bitmap.None? {
          FailureAt(sections, decoded, i);
          return Err(InvalidWheelSectionData(i));
        }
        bitmap := section.bitmap.value;
      } else {
        if section.drawableRes !in decoded {
          FailureAt(sections, decoded, i);
          return Err(InvalidWheelSectionData(i));
        }
        bitmap := decoded[section.drawableRes];
      }
      commands := commands + [MaskedBitmap(startAngle, sweepAngle, bitmap)];
      ArcStartStep(i, n);
      startAngle := startAngle + sweepAngle;
      i := i + 1;
    }
    assert commands == seq(n, j requires 0 <= j < n => SectionDraw(sections[j], j, n, decoded));
    return Ok(commands);
  }

  /** Integer division truncating toward zero, as the source's `/` on ints. */
  function TruncDiv2(a: int): (r: int)
    ensures 0 <= a ==> 0 <= 2 * r <= a < 2 * r + 2
    ensures a < 0 ==> 2 * r - 2 < a <= 2 * r <= 0
  {
    if a >= 0 then a / 2 else -((-a) / 2)
  }

  function Min(a: int, b: int): int { if a < b then a else b }

  /** The separator lines: one from the centre to the rim at each section
      boundary, i * 360 / n degrees for i in 0 .. n - 1. */
  function SeparatorLines(n: nat, width: int, height: int, color: int, thickness: int): seq<DrawCommand>
  {
    seq(n, i requires 0 <= i < n =>
      SeparatorLine(width / 2, height / 2, Min(width, height) / 2, 360.0 * (i as real) / (n as real), color, thickness))
  }

  /** Separator i lies on the boundary where arc i of the wheel starts. */
  lemma SeparatorsOnBoundaries(sections: seq<Section>, decoded: map<int, Bitmap>,
                               width: int, height: int, color: int, thickness: int)
    requires SectionCommands(sections, decoded).Ok?
    ensures var arcs := SectionCommands(sections, decoded).value;
      var lines := SeparatorLines(|sections|, width, height, color, thickness);
      |lines| == |arcs|
      && forall i :: 0 <= i < |lines| ==> lines[i].angle == arcs[i].startAngle
  {
    var n := |sections|;
    var arcs := SectionCommands(sections, decoded).value;
    var lines := SeparatorLines(n, width, height, color, thickness);
    assert FirstFailure(sections, decoded) == n;
    forall i | 0 <= i < n
      ensures lines[i].angle == arcs[i].startAngle
    {
      CommandAt(sections, decoded, i);
      SeparatorAngle(n, i, width, height, color, thickness);
    }
  }

  /** Separator i is drawn at the angle where arc i starts. */
  lemma SeparatorAngle(n: nat, i: nat, width: int, height: int, color: int, thickness: int)
    requires i < n
    ensures SeparatorLines(n, width, height, color, thickness)[i].angle == ArcStart(i, n)
  {
    var angle := SeparatorLines(n, width, height, color, thickness)[i].angle;
    var a := ArcStart(i, n);
    assert angle == 360.0 * (i as real) / (n as real);
    assert (angle - a) * (n as real) == 0.0;
  }

  /** The separator lines, drawn by the source's loop over the sections. */
  method DrawSeparators(n: nat, width: int, height: int, color: int, thickness: int)
    returns (lines: seq<DrawCommand>)
    ensures lines == SeparatorLines(n, width, height, color, thickness)
  {
    var r := Min(width, height) / 2;
    var centerX := width / 2;
    var centerY := height / 2;
    lines := [];
    var i := 0;
    while i < n
      invariant 0 <= i <= n
      invariant |lines| == i
      invariant forall j :: 0 <= j < i ==> lines[j] == SeparatorLines(n, width, height, color, thickness)[j]
    {
      var t := 360.0 * (i as real) / (n as real);
      lines := lines + [SeparatorLine(centerX, centerY, r, t, color, thickness)];
      i := i + 1;
    }
  }

  /** The border ring: centred on the wheel, its radius is half of the
      smaller side less the line thickness, truncated toward zero. */
  function Border(width: int, height: int, color: int, thickness: int): DrawCommand
  {
    BorderCircle(width / 2, height / 2, TruncDiv2(Min(width, height) - thickness), color, thickness)
  }

  /** The whole image the wheel would display for `sections`: no sections is
      an error, a zero or negative side fails when the first full-size
      bitmap (the mask) is allocated, a section that cannot be drawn fails; otherwise the arcs,
      then a separator per section if a separator colour is set, then the
      border if a border colour is set. */
  function RenderWheel(sections: Option<seq<Section>>, width: int, height: int,
                       style: Style, decoded: map<int, Bitmap>): Result<seq<DrawCommand>>
  {
    if sections.None? then Err(InvalidWheelSections)
    else if width <= 0 || height <= 0 then Err(InvalidDimensions)
    else match SectionCommands(sections.value, decoded)
      case Err(e) => Err(e)
      case Ok(arcs) =>
        var separators := if style.separatorColor != NoColor
          then SeparatorLines(|sections.value|, width, height, style.separatorColor, style.separatorThickness)
          else [];
        var border := if style.borderColor != NoColor
          then [Border(width, height, style.borderColor, style.borderThickness)]
          else [];
        Ok(arcs + separators + border)
  }

  /** What a rendered image contains: the section arcs first, one per
      section, then exactly the lines and ring the style asks for. */
  lemma RenderWheelShape(sections: Option<seq<Section>>, width: int, height: int,
                         style: Style, decoded: map<int, Bitmap>)
    ensures RenderWheel(sections, width, height, style, decoded).Ok? <==>
      sections.Some? && 0 < width && 0 < height && FirstFailure(sections.value, decoded) == |sections.value|
    ensures RenderWheel(sections, width, height, style, decoded).Ok? ==>
      var img := RenderWheel(sections, width, height, style, decoded).value;
      var n := |sections.value|;
      var lines := if style.separatorColor != NoColor then n else 0;
      var rings := if style.borderColor != NoColor then 1 else 0;
      |img| == n + lines + rings
      && img[..n] == SectionCommands(sections.value, decoded).value
      && (forall i :: n <= i < n + lines ==> img[i].SeparatorLine?)
      && (rings == 1 ==> img[|img| - 1] == Border(width, height, style.borderColor, style.borderThickness))
  {
  }
}
