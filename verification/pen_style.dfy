/**
 Line joins and line ends of R's graphics engine, and the SVG keywords
 set_stroke writes for them (src/utils.cpp, the join and end switches).
 The codes are those of R's R_GE_linejoin and R_GE_lineend enumerations.
 */
module PenStyle {
  import opened Optional

  const RoundJoin: int := 1
  const MitreJoin: int := 2
  const BevelJoin: int := 3

  const RoundCap: int := 1
  const ButtCap: int := 2
  const SquareCap: int := 3

  /** The `stroke-linejoin` keyword: one of three, "miter" and "bevel" exactly
      for their own codes, and "round" for the round code and every code the
      table does not know. */
  function LineJoin(join: int): (r: string)
    ensures r == "round" || r == "miter" || r == "bevel"
    ensures r == "miter" <==> join == MitreJoin
    ensures r == "bevel" <==> join == BevelJoin
    ensures join != RoundJoin && join != MitreJoin && join != BevelJoin ==> r == "round"
  {
    if join == RoundJoin then "round"
    else if join == MitreJoin then "miter"
    else if join == BevelJoin then "bevel"
    else "round"
  }

  /** The `stroke-linecap` keyword: one of three, "butt" and "square" exactly
      for their own codes, and "round" for the round code and every code the
      table does not know. */
  function LineCap(cap: int): (r: string)
    ensures r == "round" || r == "butt" || r == "square"
    ensures r == "butt" <==> cap == ButtCap
    ensures r == "square" <==> cap == SquareCap
    ensures cap != RoundCap && cap != ButtCap && cap != SquareCap ==> r == "round"
  {
    if cap == RoundCap then "round"
    else if cap == ButtCap then "butt"
    else if cap == SquareCap then "square"
    else "round"
  }

  /** The join code a `stroke-linejoin` keyword stands for. */
  function JoinCode(keyword: string): Option<int>
  {
    if keyword == "round" then Some(RoundJoin)
    else if keyword == "miter" then Some(MitreJoin)
    else if keyword == "bevel" then Some(BevelJoin)
    else None
  }

  /** The cap code a `stroke-linecap` keyword stands for. */
  function CapCode(keyword: string): Option<int>
  {
    if keyword == "round" then Some(RoundCap)
    else if keyword == "butt" then Some(ButtCap)
    else if keyword == "square" then Some(SquareCap)
    else None
  }

  /** The join table is a bijection between the three known codes and the
      three keywords: each known code comes back from its keyword, and every
      keyword written reads back to a code that writes it again. */
  lemma LineJoinRoundTrip(join: int)
    ensures join == RoundJoin || join == MitreJoin || join == BevelJoin ==>
              JoinCode(LineJoin(join)) == Some(join)
    ensures JoinCode(LineJoin(join)).Some?
    ensures LineJoin(JoinCode(LineJoin(join)).value) == LineJoin(join)
  {
  }

  /** The cap table is a bijection between the three known codes and the
      three keywords, in the same sense as the join table. */
  lemma LineCapRoundTrip(cap: int)
    ensures cap == RoundCap || cap == ButtCap || cap == SquareCap ==>
              CapCode(LineCap(cap)) == Some(cap)
    ensures CapCode(LineCap(cap)).Some?
    ensures LineCap(CapCode(LineCap(cap)).value) == LineCap(cap)
  {
  }
}
