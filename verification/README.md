# SVG stroke and fill attributes of ggiraph's device utilities

This project models the attribute formatter of ggiraph's SVG graphics
device (`src/utils.cpp`): how an R graphics-engine pen (colour, line width,
line type, line join, line end) becomes SVG presentation attributes on an
element, and the two primitives it is built from, `set_attr` and
`svg_attribute`.

- An element is modelled by its attributes only: a `map<string, string>`
  from attribute name to value (`Attributes.Element`). `set_attr` is a map
  update (`Attributes.SetAttr`); `svg_attribute` is a lookup returning
  `None` where the C++ returns `NULL` (`Attributes.Attribute`).
- `set_fill` and `set_stroke` are modelled as the sequence of `set_attr`
  calls they make, in the order they make them (`Paint.PaintCalls`,
  `Paint.StrokeCalls`), applied by `Attributes.SetAll`. The frame properties
  ("nothing else changes") then follow from one lookup lemma,
  `Attributes.SetAllLookup`.
- The colour class `a_color` is modelled as a record of what these
  functions use: its transparency and visibility predicates and its hex and
  opacity renderings (`Paint.Color`). The link that its alpha channel gives
  the two predicates (transparent when alpha is 0, visible when alpha > 0)
  is the predicate `Paint.AlphaLinked`; it is a hypothesis of the lemmas
  that need it and nothing else relies on it.
- R's packed line type is decoded nibble by nibble (`LineType.Nibble`, least
  significant first) into the dash lengths (`LineType.DashLengths`) and the
  comma-joined decimal text of `stroke-dasharray` (`LineType.DashArrayText`).
  `LineType.WriteDashArray` is the C++ loop itself, proved to produce that
  text. `LineType.Pack` and `LineType.ParseDashArray` are the inverses used
  to state round trips.
- The constants of R's graphics-engine header are fixed to R's values:
  `LTY_BLANK = -1`, `LTY_SOLID = 0`; joins round/mitre/bevel = 1/2/3; line
  ends round/butt/square = 1/2/3 (`LineType.LtyBlank`, `LineType.LtySolid`,
  `PenStyle`).
- The width is a `real`; the C cast `(int) lwd` is truncation toward zero
  (`LineType.Truncate`). C `int` parameters are the subset type
  `LineType.Int32`.
- `format(int)` and the stream insertion of an `int` are the decimal
  rendering `Decimal.FormatInt`, with its reader `Decimal.ParseInt`.
  `format(double)` is a parameter `fmt: real -> string` of `set_stroke`.

Three behaviours of the code worth noting:

- The first dash entry is written even when the lowest nibble is zero, and
  the loop may append up to eight entries after it. For a non-negative
  32-bit line type only seven nibbles remain after the first, so at most
  eight entries are ever written (`LineType.DashLengthsOf32Bits`).
- For a transparent colour `set_fill` writes `fill="none"` and leaves any
  earlier `fill-opacity` in place; it does not remove it. The same holds for
  `stroke-opacity` in `set_stroke`.
- The `LTY_BLANK` case of the line-type switch is unreachable: the early
  exit has already returned for every negative line type
  (`Paint.SkipsDetails`, `Paint.SetStrokeDetails`).

## Model

| member | source | states |
|---|---|---|
| Attributes.Attribute | src/utils.cpp:21-27 | svg_attribute yields a value exactly for the names the element holds, and then the value held; with SetAttr's contract and SetAllLookup this gives read-after-write |
| Attributes.SetAttr | src/utils.cpp:61-63 | after setting a name, looking it up gives the value just written; every other name looks up as before; the name set grows by exactly that name |
| Attributes.SetAllLookup | src/utils.cpp:61-63 | after a run of set_attr calls, a lookup yields the value of the last call naming it, or the earlier value if no call names it |
| Attributes.SetAllFrame | src/utils.cpp:61-63 | a name no call writes keeps its value |
| Attributes.NeverSetIsAbsent | src/utils.cpp:21-27 | on a fresh element, a name that was never set reads as absent (NULL) |
| Attributes.SetAllIdempotent | src/utils.cpp:61-63 | repeating the same run of set_attr calls leaves the element unchanged |
| Decimal.NatDigits | src/utils.cpp:17-19 | the decimal digits of a natural number are non-empty, all digits, without a leading zero unless the number is zero |
| Decimal.NatDigitsRoundTrip | src/utils.cpp:17-19 | reading the digits back gives the number |
| Decimal.FormatInt | src/utils.cpp:17-19 | the "%d" text is a minus sign exactly for negative numbers followed by digits only, with no leading zero unless the number is zero |
| Decimal.FormatIntRoundTrip | src/utils.cpp:17-19 | parsing the "%d" text gives back the integer |
| Decimal.FormatIntInjective | src/utils.cpp:17-19 | different integers get different texts |
| CommaList.SplitJoin | src/utils.cpp:98-105 | splitting at commas a comma-joined list of comma-free entries gives the entries back |
| LineType.Truncate | src/utils.cpp:99 | the `(int)` cast of a width lies within one unit of it, toward zero |
| LineType.NibbleAbove | src/utils.cpp:100-103 | a line type below 16^k has a zero nibble at position k |
| LineType.DashTail | src/utils.cpp:100-104 | the loop appends, in order, unit times each nibble after the first while nibbles are nonzero, and stops at a zero nibble or after eight entries |
| LineType.DashLengths | src/utils.cpp:98-104 | entry 0 is unit times nibble 0 even if that nibble is zero; entry k >= 1 is unit times nibble k and exists only while nibbles 1..k are nonzero; the list ends at a zero nibble unless nine entries are written |
| LineType.DashLengthsOf32Bits | src/utils.cpp:99-104 | for a 32-bit line type the list holds 1 to 8 entries, always ends at a zero nibble, and each entry is between 0 and 15 units |
| LineType.NibbleOfPack | src/utils.cpp:99-103 | unpacking a packed nibble list gives each nibble at its position, then zeros |
| LineType.PackDashRoundTrip | src/utils.cpp:98-104 | at unit width, decoding a packed first nibble followed by nonzero nibbles returns exactly those nibbles |
| LineType.DashArrayText | src/utils.cpp:98-105 | the stroke-dasharray text has one comma-separated piece per dash length, piece k is the canonical decimal text of length k, and it parses back to exactly the dash lengths of DashLengths; its shape for 32-bit line types is DashLengthsOf32Bits, and WriteDashArray proves the C++ loop writes it |
| LineType.DashArrayExample | src/utils.cpp:98-105 | line type 0x42 at width 1 gives "2,4" |
| LineType.WriteDashArray | src/utils.cpp:89-105 | the shift-and-append loop, bounded by eight turns and by the first zero nibble, writes exactly the comma-joined decimal dash lengths |
| PenStyle.LineJoin | src/utils.cpp:109-122 | stroke-linejoin is one of round, miter, bevel; miter and bevel exactly for their codes; any unknown code gives round |
| PenStyle.LineCap | src/utils.cpp:124-137 | stroke-linecap is one of round, butt, square; butt and square exactly for their codes; any unknown code gives round |
| PenStyle.LineJoinRoundTrip | src/utils.cpp:109-122 | each known join code is recovered from its keyword, and every keyword written names a code that writes it again |
| PenStyle.LineCapRoundTrip | src/utils.cpp:124-137 | each known cap code is recovered from its keyword, and every keyword written names a code that writes it again |
| Paint.PaintCalls | src/utils.cpp:67-72 | the none-or-colour branch, name by name: the paint name gets "none" for a transparent colour and the colour otherwise; the opacity name is written, with the opacity, only for a colour that is not transparent; nothing else is written (shared with src/utils.cpp:77-82) |
| Paint.SetFill | src/utils.cpp:65-73 | transparent: fill becomes "none" and fill-opacity keeps its value; otherwise fill is the colour and fill-opacity its opacity; no other attribute changes; idempotence is SetFillIdempotent |
| Paint.SkipsDetails | src/utils.cpp:83-85 | the early exit is taken exactly when the colour is invisible, the width is below 0.0001 or the line type is negative; past it the colour is visible, the width at least 0.0001 and the line type non-negative, so never blank |
| Paint.StrokeCalls | src/utils.cpp:76-137 | name by name, what set_stroke's calls write last: stroke and stroke-opacity by the none-or-colour rule; past the early exit stroke-width, stroke-linejoin and stroke-linecap get their values and stroke-dasharray gets the dash text exactly when the line type is not solid; nothing else is written |
| Paint.SetStroke | src/utils.cpp:75-138 | stroke follows the none-or-colour rule and stroke-opacity is written only for a non-transparent colour, whether or not the early exit is taken; when it is taken the four detail attributes keep their values or stay absent; no attribute outside the six stroke names changes; the attributes written past the exit are SetStrokeDetails, the dash array's shape SetStrokeDashShape |
| Paint.SetFillIdempotent | src/utils.cpp:65-73 | set_fill twice with one colour equals set_fill once |
| Paint.SetStrokeDetails | src/utils.cpp:87-137 | past the early exit the line type is not blank; stroke-width, stroke-linejoin and stroke-linecap are written; stroke-dasharray is written, with the dash text of the truncated width, exactly when the line type is not solid |
| Paint.SetStrokeIdempotent | src/utils.cpp:75-137 | set_stroke twice with one pen equals set_stroke once |
| Paint.TransparentStrokeIsNone | src/utils.cpp:76-85 | when alpha links the colour predicates, a transparent stroke writes stroke="none" and nothing else |
| Paint.SetStrokeDashShape | src/utils.cpp:92-105 | a written stroke-dasharray has 1 to 8 comma-separated entries, entry k being the truncated width times nibble k, between 0 and 15 units |
| Paint.SetStrokeDashRoundTrip | src/utils.cpp:92-105 | at a width in [1, 2), the stroke-dasharray of a packed positive 32-bit line type reads back as its nibbles |

## Left out

- `format(double)`: the "%.2f" rendering is the parameter `fmt` of `Paint.SetStroke`; two-decimal floating-point printing is not modelled.
- Paint.SetStrokeDetails: stroke-width is stated as `fmt(width * 72 / 96)` computed exactly over the reals, without the rounding of the double product.
- Paint.SkipsDetails: the 0.0001 threshold is the exact rational, not its nearest double.
- Paint.SkipsDetails: widths are finite reals. A NaN width gets past the C++ guard (`width < 0.0001` is false for NaN), has `format(NaN)` written as stroke-width and reaches the undefined `(int)` cast; NaN and infinite widths are not modelled.
- LineType.DashLengths: dash lengths are unbounded integers; the C cast of a width at or above 2^31 and the `int` product overflow for very wide lines are not modelled.
- LineType.WriteDashArray: `lty & 15` and `lty >> 4` are written as `% 16` and `/ 16`, which agree on the non-negative line types that reach the loop; negative line types never reach it.
- The variadic `format(const char*, ...)`, its shared 200-byte buffer and the silent truncation of `vsnprintf` (src/utils.cpp:4-13): C varargs and global state.
- `svg_to_file` (src/utils.cpp:29-33): file output through tinyxml2's printer.
- `new_svg_doc`, `new_svg_element`, `new_svg_text`, `append_element`, `prepend_element` (src/utils.cpp:35-59): allocation and child insertion in the tinyxml2 tree, which is not part of this model; elements are modelled by their attributes only.
- The order of attributes on an element: tinyxml2 keeps insertion order, the map does not.
- How `a_color` decodes R's packed colour integer into its predicates, hex string and opacity text (src/utils.cpp:66, src/utils.cpp:76): `a_color` is not part of this model; the colour is an input record.
