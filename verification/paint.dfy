/**
 Fill and stroke presentation attributes (src/utils.cpp, set_fill and
 set_stroke). Each operation is the sequence of set_attr calls the C++
 code makes, applied in order to the element's attributes, so what it
 leaves alone follows from what set_attr leaves alone.
 */
module Paint {
  import opened Optional
  import opened Attributes
  import opened LineType
  import opened PenStyle
  import CommaList

  /** A colour as set_fill and set_stroke see it: a_color's two predicates
      and its two renderings (hex colour and opacity text). How a_color
      decodes R's packed colour integer is not part of this model. */
  datatype Color = Color(transparent: bool, visible: bool, hex: string, opacity: string)

  /** The link a_color's alpha channel puts between the two predicates:
      transparent when alpha is zero, visible when it is positive. No
      operation relies on it; lemmas that need it say so. */
  predicate AlphaLinked(c: Color)
  {
    c.transparent == !c.visible
  }

  /** The none-or-colour rule shared by fill and stroke: the paint name gets
      "none" for a transparent colour and the colour otherwise; the opacity
      name is written, with the colour's opacity, only when the colour is
      not transparent; no other name is written. */
  function PaintCalls(c: Color, paint: string, opacity: string): (r: seq<Assign>)
    requires paint != opacity
    ensures forall n :: LastWritten(r, n) ==
              if n == paint then Some(if c.transparent then "none" else c.hex)
              else if n == opacity && !c.transparent then Some(c.opacity)
              else None
  {
    var first := Assign(paint, if c.transparent then "none" else c.hex);
    LastWrittenSingleAll(first);
    if c.transparent then [first]
    else
      var second := Assign(opacity, c.opacity);
      LastWrittenSingleAll(second);
      LastWrittenConcatAll([first], [second]);
      assert [first] + [second] == [first, second];
      [first, second]
  }

  /** set_fill. A transparent colour sets fill to "none" and leaves
      fill-opacity as it was; any other colour sets fill to the colour and
      fill-opacity to its opacity. No other attribute changes. */
  function SetFill(e: Element, c: Color): (r: Element)
    ensures Attribute(r, "fill") == Some(if c.transparent then "none" else c.hex)
    ensures Attribute(r, "fill-opacity") ==
              if c.transparent then Attribute(e, "fill-opacity") else Some(c.opacity)
    ensures forall n :: n != "fill" && n != "fill-opacity" ==> Attribute(r, n) == Attribute(e, n)
  {
    var calls := PaintCalls(c, "fill", "fill-opacity");
    SetAllLookupAll(e, calls);
    SetAll(e, calls)
  }

  /** Widths below this are treated as no line at all. */
  const MinWidth: real := 0.0001

  /** The attributes set_stroke writes only past its early exit. */
  const DetailNames: set<string> :=
    {"stroke-width", "stroke-dasharray", "stroke-linejoin", "stroke-linecap"}

  /** Every attribute set_stroke may write. */
  const StrokeNames: set<string> := {"stroke", "stroke-opacity"} + DetailNames

  /** The early exit of set_stroke, taken after the stroke colour is set.
      It is taken exactly when the colour is not visible, the width is below
      0.0001 or the line type is negative; past it the line type is never
      the blank one. */
  function SkipsDetails(c: Color, width: real, lineType: int): (r: bool)
    ensures !r ==> c.visible && MinWidth <= width && 0 <= lineType && lineType != LtyBlank
    ensures width < MinWidth || lineType == LtyBlank ==> r
    ensures c.visible && MinWidth <= width && 0 <= lineType ==> !r
  {
    !c.visible || width < MinWidth || lineType < 0
  }

  /** The set_attr calls of set_stroke, in order. `fmt` is format(double),
      the two-decimal rendering of the width after scaling by 72/96.
      Name by name: past the early exit each detail attribute gets its own
      value, the dash array only for a line type that is not solid; every
      other name is written, if at all, by the none-or-colour rule. */
  function StrokeCalls(width: real, c: Color, lineType: Int32, join: Int32, cap: Int32,
                       fmt: real -> string): (r: seq<Assign>)
    ensures forall n :: LastWritten(r, n) ==
              if SkipsDetails(c, width, lineType) || n !in DetailNames then
                (if n == "stroke" then Some(if c.transparent then "none" else c.hex)
                 else if n == "stroke-opacity" && !c.transparent then Some(c.opacity)
                 else None)
              else if n == "stroke-width" then Some(fmt(width * 72.0 / 96.0))
              else if n == "stroke-dasharray" then
                (if lineType == LtySolid then None else Some(DashArrayText(Truncate(width), lineType)))
              else if n == "stroke-linejoin" then Some(LineJoin(join))
              else Some(LineCap(cap))
  {
    var paint := PaintCalls(c, "stroke", "stroke-opacity");
    if SkipsDetails(c, width, lineType) then paint
    else
      var dash :=
        if lineType == LtyBlank || lineType == LtySolid then []
        else [Assign("stroke-dasharray", DashArrayText(Truncate(width), lineType))];
      var w := Assign("stroke-width", fmt(width * 72.0 / 96.0));
      var j := Assign("stroke-linejoin", LineJoin(join));
      var k := Assign("stroke-linecap", LineCap(cap));
      StrokeDetailsWritten(paint, w, dash, j, k);
      paint + [w] + dash + [j, k]
  }

  /** How the last writes of the detail calls combine with the paint calls. */
  lemma StrokeDetailsWritten(paint: seq<Assign>, w: Assign, dash: seq<Assign>, j: Assign, k: Assign)
    requires |dash| <= 1
    ensures forall n :: LastWritten(paint + [w] + dash + [j, k], n) ==
              if n == k.name then Some(k.value)
              else if n == j.name then Some(j.value)
              else if |dash| == 1 && n == dash[0].name then Some(dash[0].value)
              else if n == w.name then Some(w.value)
              else LastWritten(paint, n)
  {
    assert paint + [w] + dash + [j, k] == (((paint + [w]) + dash) + [j]) + [k];
    LastWrittenConcatAll(((paint + [w]) + dash) + [j], [k]);
    LastWrittenConcatAll((paint + [w]) + dash, [j]);
    LastWrittenConcatAll(paint + [w], dash);
    LastWrittenConcatAll(paint, [w]);
    LastWrittenSingleAll(w);
    LastWrittenSingleAll(j);
    LastWrittenSingleAll(k);
    if |dash| == 1 {
      LastWrittenSingleAll(dash[0]);
      assert dash == [dash[0]];
    } else {
      assert forall n :: LastWritten(dash, n) == None;
    }
  }

  /** set_stroke. Whether or not the early exit is taken, stroke follows the
      none-or-colour rule and stroke-opacity is written only for a colour
      that is not transparent. When the early exit is taken the four detail
      attributes keep their values or stay absent. No attribute outside the
      six stroke names changes. */
  function SetStroke(e: Element, width: real, c: Color, lineType: Int32, join: Int32, cap: Int32,
                     fmt: real -> string): (r: Element)
    ensures Attribute(r, "stroke") == Some(if c.transparent then "none" else c.hex)
    ensures Attribute(r, "stroke-opacity") ==
              if c.transparent then Attribute(e, "stroke-opacity") else Some(c.opacity)
    ensures SkipsDetails(c, width, lineType) ==>
              forall n :: n in DetailNames ==> Attribute(r, n) == Attribute(e, n)
    ensures forall n :: n !in StrokeNames ==> Attribute(r, n) == Attribute(e, n)
  {
    var calls := StrokeCalls(width, c, lineType, join, cap, fmt);
    SetAllLookupAll(e, calls);
    SetAll(e, calls)
  }

  /** set_fill twice with the same colour is set_fill once. */
  lemma SetFillIdempotent(e: Element, c: Color)
    ensures SetFill(SetFill(e, c), c) == SetFill(e, c)
  {
    SetAllIdempotent(e, PaintCalls(c, "fill", "fill-opacity"));
  }

  /** Past the early exit, stroke-width, stroke-linejoin and stroke-linecap are
      always written; stroke-dasharray is written exactly when the line type
      is not solid, and holds the dash text of the truncated width. The blank
      line type never gets this far, since it is negative. */
  lemma {:induction false} SetStrokeDetails(e: Element, width: real, c: Color, lineType: Int32, join: Int32, cap: Int32,
                         fmt: real -> string)
    requires !SkipsDetails(c, width, lineType)
    ensures lineType != LtyBlank
    ensures Attribute(SetStroke(e, width, c, lineType, join, cap, fmt), "stroke-width") ==
              Some(fmt(width * 72.0 / 96.0))
    ensures Attribute(SetStroke(e, width, c, lineType, join, cap, fmt), "stroke-dasharray") ==
              if lineType == LtySolid then Attribute(e, "stroke-dasharray")
              else Some(DashArrayText(Truncate(width), lineType))
    ensures Attribute(SetStroke(e, width, c, lineType, join, cap, fmt), "stroke-linejoin") ==
              Some(LineJoin(join))
    ensures Attribute(SetStroke(e, width, c, lineType, join, cap, fmt), "stroke-linecap") ==
              Some(LineCap(cap))
  {
    var calls := StrokeCalls(width, c, lineType, join, cap, fmt);
    SetAllLookup(e, calls, "stroke-width");
    SetAllLookup(e, calls, "stroke-dasharray");
    SetAllLookup(e, calls, "stroke-linejoin");
    SetAllLookup(e, calls, "stroke-linecap");
  }

  /** set_stroke twice with the same pen is set_stroke once. */
  lemma SetStrokeIdempotent(e: Element, width: real, c: Color, lineType: Int32, join: Int32, cap: Int32,
                            fmt: real -> string)
    ensures SetStroke(SetStroke(e, width, c, lineType, join, cap, fmt), width, c, lineType, join, cap, fmt)
            == SetStroke(e, width, c, lineType, join, cap, fmt)
  {
    SetAllIdempotent(e, StrokeCalls(width, c, lineType, join, cap, fmt));
  }

  /** Where a_color's alpha links its predicates, a transparent stroke colour
      writes stroke="none" and nothing else at all. */
  lemma TransparentStrokeIsNone(e: Element, width: real, c: Color, lineType: Int32, join: Int32,
                                cap: Int32, fmt: real -> string)
    requires AlphaLinked(c) && c.transparent
    ensures SetStroke(e, width, c, lineType, join, cap, fmt) == SetAttr(e, "stroke", "none")
  {
    var calls := StrokeCalls(width, c, lineType, join, cap, fmt);
    assert calls == [Assign("stroke", "none")];
    assert calls[..0] == [];
    assert SetAll(e, calls[..0]) == e;
  }

  /** The stroke-dasharray set_stroke writes holds between one and eight
      comma-separated decimal entries; entry k is the truncated width times
      nibble k of the line type, so a non-negative multiple of it. */
  lemma {:induction false} SetStrokeDashShape(e: Element, width: real, c: Color, lineType: Int32, join: Int32, cap: Int32,
                           fmt: real -> string)
    requires !SkipsDetails(c, width, lineType) && lineType != LtySolid
    ensures Attribute(SetStroke(e, width, c, lineType, join, cap, fmt), "stroke-dasharray")
            == Some(DashArrayText(Truncate(width), lineType))
    ensures 1 <= |CommaList.Split(DashArrayText(Truncate(width), lineType))| <= 8
    ensures ParseDashArray(DashArrayText(Truncate(width), lineType)) == Some(DashLengths(Truncate(width), lineType))
    ensures forall k :: 0 <= k < |DashLengths(Truncate(width), lineType)| ==>
              DashLengths(Truncate(width), lineType)[k] == Truncate(width) * Nibble(lineType, k)
              && 0 <= DashLengths(Truncate(width), lineType)[k] <= 15 * Truncate(width)
  {
    SetStrokeDetails(e, width, c, lineType, join, cap, fmt);
    DashLengthsOf32Bits(Truncate(width), lineType);
  }

  /** With a width in [1, 2), packing a first nibble and up to seven nonzero
      nibbles into a positive 32-bit line type and drawing with it yields a
      stroke-dasharray that reads back as exactly those nibbles. */
  lemma {:induction false} SetStrokeDashRoundTrip(e: Element, width: real, c: Color, ns: seq<int>, join: Int32, cap: Int32,
                               fmt: real -> string)
    requires c.visible && 1.0 <= width < 2.0
    requires IsNibbles(ns) && 1 <= |ns| <= 8
    requires forall i :: 1 <= i < |ns| ==> ns[i] != 0
    requires 0 < Pack(ns) < 0x8000_0000
    ensures Attribute(SetStroke(e, width, c, Pack(ns), join, cap, fmt), "stroke-dasharray").Some?
    ensures ParseDashArray(Attribute(SetStroke(e, width, c, Pack(ns), join, cap, fmt), "stroke-dasharray").value)
            == Some(ns)
  {
    var lty := Pack(ns);
    SetStrokeDetails(e, width, c, lty, join, cap, fmt);
    assert Truncate(width) == 1;
    PackDashRoundTrip(ns);
  }
}
