/**
 R's packed line type and the `stroke-dasharray` text built from it
 (src/utils.cpp, the default branch of the line-type switch in set_stroke).

 A line type is an int whose nibbles, least significant first, are dash and
 gap lengths in units of the line width. The builder always writes the
 first nibble, then keeps shifting right by four bits and writes each
 following nibble until it meets a zero nibble or has written eight more.
 Every entry is the line width cast to int, times the nibble.
 */
module LineType {
  import opened Optional
  import Decimal
  import CommaList

  /** A C `int`, 32 bits wide on every platform R supports. */
  type Int32 = x: int | -0x8000_0000 <= x < 0x8000_0000

  /** LTY_BLANK and LTY_SOLID of R's graphics engine. */
  const LtyBlank: int := -1
  const LtySolid: int := 0

  /** The C cast `(int) x` of a double: truncation toward zero. */
  function Truncate(x: real): (r: int)
    ensures 0.0 <= x ==> r as real <= x < r as real + 1.0
    ensures x < 0.0 ==> r as real - 1.0 < x <= r as real
  {
    if x >= 0.0 then x.Floor else -((-x).Floor)
  }

  function Pow16(k: nat): (r: nat)
    ensures r >= 1
  {
    if k == 0 then 1 else 16 * Pow16(k - 1)
  }

  /** Nibble k of lty, counting from the least significant: `lty & 15` after k shifts by four. */
  function Nibble(lty: nat, k: nat): (r: nat)
    ensures r < 16
    decreases k
  {
    if k == 0 then lty % 16 else Nibble(lty / 16, k - 1)
  }

  /** A number below 16^k has no nonzero nibble at position k. */
  lemma {:induction false} NibbleAbove(lty: nat, k: nat)
    requires lty < Pow16(k)
    ensures Nibble(lty, k) == 0
    decreases k
  {
    if k > 0 {
      NibbleAbove(lty / 16, k - 1);
    }
  }

  /** The entries the loop appends after the first one: each nonzero nibble
      of lty in turn, scaled by unit, stopping at the first zero nibble or
      once `budget` entries are written. */
  function DashTail(unit: int, lty: nat, budget: nat): (r: seq<int>)
    ensures |r| <= budget
    ensures forall k :: 0 <= k < |r| ==> Nibble(lty, k) != 0 && r[k] == unit * Nibble(lty, k)
    ensures |r| < budget ==> Nibble(lty, |r|) == 0
    decreases budget
  {
    if budget == 0 || lty % 16 == 0 then []
    else [unit * (lty % 16)] + DashTail(unit, lty / 16, budget - 1)
  }

  /** The dash lengths for line type lty and integer width unit. Entry 0 is
      unit times nibble 0, even when that nibble is zero; entry k >= 1 is unit
      times nibble k, and exists only while nibbles 1..k are all nonzero; the
      list ends at a zero nibble unless it already holds nine entries. */
  function DashLengths(unit: int, lty: nat): (r: seq<int>)
    ensures 1 <= |r| <= 9
    ensures r[0] == unit * Nibble(lty, 0)
    ensures forall k :: 1 <= k < |r| ==> Nibble(lty, k) != 0 && r[k] == unit * Nibble(lty, k)
    ensures |r| < 9 ==> Nibble(lty, |r|) == 0
  {
    [unit * (lty % 16)] + DashTail(unit, lty / 16, 8)
  }

  /** For a line type that fits a 32-bit int, the eight-entry cap of the loop
      never cuts it short: at most eight entries, and the list always ends at
      a zero nibble. Every entry is unit times a nibble, so a non-negative
      multiple of unit no larger than 15 units. */
  lemma {:induction false} DashLengthsOf32Bits(unit: nat, lty: nat)
    requires lty < 0x1_0000_0000
    ensures 1 <= |DashLengths(unit, lty)| <= 8
    ensures Nibble(lty, |DashLengths(unit, lty)|) == 0
    ensures forall k :: 0 <= k < |DashLengths(unit, lty)| ==>
              0 <= DashLengths(unit, lty)[k] <= 15 * unit
  {
    Pow16Eight();
    NibbleAbove(lty, 8);
    var r := DashLengths(unit, lty);
    forall k | 0 <= k < |r| ensures 0 <= r[k] <= 15 * unit {
      ScaledNibbleBound(unit, Nibble(lty, k));
    }
  }

  lemma Pow16Eight()
    ensures Pow16(8) == 0x1_0000_0000
  {
    assert Pow16(2) == 0x100;
    assert Pow16(4) == 0x1_0000;
    assert Pow16(6) == 0x100_0000;
  }

  lemma ScaledNibbleBound(unit: nat, m: nat)
    requires m < 16
    ensures 0 <= unit * m <= 15 * unit
  {
    assert unit * (15 - m) >= 0;
  }

  predicate IsNibbles(ns: seq<int>)
  {
    forall i :: 0 <= i < |ns| ==> 0 <= ns[i] < 16
  }

  /** Packs nibbles into a line type, first nibble least significant. */
  function Pack(ns: seq<int>): nat
    requires IsNibbles(ns)
    decreases |ns|
  {
    if |ns| == 0 then 0 else ns[0] + 16 * Pack(ns[1..])
  }

  /** Unpacking a packed line type gives back its nibbles, then zeros. */
  lemma {:induction false} NibbleOfPack(ns: seq<int>, k: nat)
    requires IsNibbles(ns)
    ensures Nibble(Pack(ns), k) == if k < |ns| then ns[k] else 0
    decreases |ns|
  {
    if |ns| == 0 {
      NibbleAbove(0, k);
    } else {
      var p := Pack(ns);
      assert p % 16 == ns[0] && p / 16 == Pack(ns[1..]);
      if k > 0 {
        NibbleOfPack(ns[1..], k - 1);
      }
    }
  }

  /** With a unit width the dash lengths are the nibbles themselves, so packing
      a first nibble and up to eight nonzero nibbles after it and decoding
      returns them. */
  lemma {:induction false} PackDashRoundTrip(ns: seq<int>)
    requires IsNibbles(ns) && 1 <= |ns| <= 9
    requires forall i :: 1 <= i < |ns| ==> ns[i] != 0
    ensures DashLengths(1, Pack(ns)) == ns
  {
    var p := Pack(ns);
    var r := DashLengths(1, p);
    if |r| < |ns| {
      NibbleOfPack(ns, |r|);
      assert false;
    }
    if |r| > |ns| {
      NibbleOfPack(ns, |ns|);
      assert false;
    }
    forall k | 0 <= k < |r| ensures r[k] == ns[k] {
      NibbleOfPack(ns, k);
    }
  }

  /** The decimal text of each length. */
  function Texts(xs: seq<int>): (r: seq<string>)
  {
    seq(|xs|, i requires 0 <= i < |xs| => Decimal.FormatInt(xs[i]))
  }

  /** Each text reads back as its length and holds no comma. */
  lemma TextsReadBack(xs: seq<int>)
    ensures |Texts(xs)| == |xs|
    ensures forall i :: 0 <= i < |xs| ==> Decimal.ParseInt(Texts(xs)[i]) == Some(xs[i])
    ensures forall i :: 0 <= i < |xs| ==> CommaList.CommaFree(Texts(xs)[i])
  {
    forall i | 0 <= i < |xs| ensures Decimal.ParseInt(Texts(xs)[i]) == Some(xs[i]) {
      Decimal.FormatIntRoundTrip(xs[i]);
    }
  }

  /** Lengths written in decimal and joined with commas. */
  function DashText(xs: seq<int>): string
  {
    CommaList.Join(Texts(xs))
  }

  /** The `stroke-dasharray` value for line type lty and integer width unit.
      It loses nothing: it holds exactly the dash lengths, one
      comma-separated entry each, written in canonical decimal. */
  function DashArrayText(unit: int, lty: nat): (r: string)
    ensures |CommaList.Split(r)| == |DashLengths(unit, lty)|
    ensures ParseDashArray(r) == Some(DashLengths(unit, lty))
    ensures forall k :: 0 <= k < |DashLengths(unit, lty)| ==>
              CommaList.Split(r)[k] == Decimal.FormatInt(DashLengths(unit, lty)[k])
  {
    var xs := DashLengths(unit, lty);
    TextsReadBack(xs);
    CommaList.SplitJoin(Texts(xs));
    ParseEntriesOfTexts(xs);
    DashText(xs)
  }

  /** Nibbles 2 then 4 (line type 0x42) at width 1 give the dash array "2,4". */
  lemma DashArrayExample()
    ensures DashArrayText(Truncate(1.0), 0x42) == "2,4"
  {
    var xs := DashLengths(1, 0x42);
    assert xs == [2, 4] by {
      assert DashTail(1, 0, 7) == [];
      assert DashTail(1, 4, 8) == [4];
    }
    assert DashText(xs) == "2,4" by {
      assert Decimal.FormatInt(2) == "2";
      assert Decimal.FormatInt(4) == "4";
      assert Texts(xs) == ["2", "4"];
      assert CommaList.Join(["2", "4"]) == "2" + "," + "4";
    }
  }

  /** Reads each comma-separated piece as a decimal integer. */
  function ParseEntries(parts: seq<string>): Option<seq<int>>
    decreases |parts|
  {
    if |parts| == 0 then Some([])
    else
      match (Decimal.ParseInt(parts[0]), ParseEntries(parts[1..]))
      case (Some(x), Some(xs)) => Some([x] + xs)
      case _ => None
  }

  /** Reads a `stroke-dasharray` value back into its lengths. */
  function ParseDashArray(s: string): Option<seq<int>>
  {
    ParseEntries(CommaList.Split(s))
  }

  lemma {:induction false} ParseEntriesOfTexts(xs: seq<int>)
    ensures ParseEntries(Texts(xs)) == Some(xs)
    decreases |xs|
  {
    TextsReadBack(xs);
    if |xs| > 0 {
      assert Texts(xs)[1..] == Texts(xs[1..]);
      ParseEntriesOfTexts(xs[1..]);
      assert [xs[0]] + xs[1..] == xs;
    }
  }

  lemma DashTextAppend(xs: seq<int>, x: int)
    requires |xs| >= 1
    ensures DashText(xs + [x]) == DashText(xs) + "," + Decimal.FormatInt(x)
  {
    var ts := Texts(xs + [x]);
    assert ts[..|ts| - 1] == Texts(xs);
  }

  /** Before the loop: the first entry is written, the rest is still to come. */
  lemma DashLoopStart(unit: int, lty: nat)
    ensures [unit * (lty % 16)] + DashTail(unit, lty / 16, 8) == DashLengths(unit, lty)
    ensures DashText([unit * (lty % 16)]) == Decimal.FormatInt(unit * (lty % 16))
  {
  }

  /** One more turn of the loop: with budget left and a nonzero nibble, the
      entry moves from the part still to come onto the part written. */
  lemma {:induction false} DashLoopStep(unit: int, lty: nat, budget: nat, lengths: seq<int>, target: seq<int>)
    requires budget > 0 && lty % 16 != 0 && |lengths| >= 1
    requires lengths + DashTail(unit, lty, budget) == target
    ensures (lengths + [unit * (lty % 16)]) + DashTail(unit, lty / 16, budget - 1) == target
    ensures DashText(lengths + [unit * (lty % 16)])
            == DashText(lengths) + "," + Decimal.FormatInt(unit * (lty % 16))
  {
    var entry := unit * (lty % 16);
    assert DashTail(unit, lty, budget) == [entry] + DashTail(unit, lty / 16, budget - 1);
    assert lengths + ([entry] + DashTail(unit, lty / 16, budget - 1))
           == (lengths + [entry]) + DashTail(unit, lty / 16, budget - 1);
    DashTextAppend(lengths, entry);
  }

  /** The dash-array builder as the C++ loop runs it: cast the width, write the
      first entry, then shift and append while the next nibble is nonzero and
      fewer than eight entries have been appended. */
  method WriteDashArray(width: real, lineType: Int32) returns (text: string)
    requires 0 <= lineType
    ensures text == DashArrayText(Truncate(width), lineType)
  {
    var unit := Truncate(width);
    var lty: nat := lineType;
    var lengths := [unit * (lty % 16)];
    text := Decimal.FormatInt(unit * (lty % 16));
    DashLoopStart(unit, lty);
    lty := lty / 16;
    var i := 0;
    while i < 8 && lty % 16 != 0
      invariant 0 <= i <= 8
      invariant |lengths| >= 1
      invariant lengths + DashTail(unit, lty, 8 - i) == DashLengths(unit, lineType)
      invariant text == DashText(lengths)
      decreases 8 - i
    {
      var entry := unit * (lty % 16);
      DashLoopStep(unit, lty, 8 - i, lengths, DashLengths(unit, lineType));
      lengths := lengths + [entry];
      text := text + "," + Decimal.FormatInt(entry);
      lty := lty / 16;
      i := i + 1;
    }
    assert DashTail(unit, lty, 8 - i) == [];
    assert lengths == DashLengths(unit, lineType);
  }
}
