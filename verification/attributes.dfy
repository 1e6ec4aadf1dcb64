/**
 The attribute part of an SVG element (src/utils.cpp, set_attr and svg_attribute).
 An element is modelled by its attributes only: a finite map from attribute
 name to attribute value. The XML tree around it is not part of this model.
 */
module Attributes {
  import opened Optional

  type Element = map<string, string>

  /** svg_attribute: the attribute's value, or None where the C++ code returns NULL. */
  function Attribute(e: Element, name: string): (r: Option<string>)
    ensures r.Some? <==> name in e
    ensures r.Some? ==> r.value == e[name]
  {
    if name in e then Some(e[name]) else None
  }

  /** set_attr: sets or overwrites one attribute; reading it back gives the value
      written, and every other attribute reads as before. */
  function SetAttr(e: Element, name: string, value: string): (r: Element)
    ensures Attribute(r, name) == Some(value)
    ensures forall n :: n != name ==> Attribute(r, n) == Attribute(e, n)
    ensures r.Keys == e.Keys + {name}
  {
    e[name := value]
  }

  /** One call of set_attr, as it appears in a sequence of calls. */
  datatype Assign = Assign(name: string, value: string)

  /** The element after the given set_attr calls, made in order. */
  function SetAll(e: Element, calls: seq<Assign>): Element
    decreases |calls|
  {
    if |calls| == 0 then e
    else
      var last := calls[|calls| - 1];
      SetAttr(SetAll(e, calls[..|calls| - 1]), last.name, last.value)
  }

  /** The value written by the last call that names `name`, if one does. */
  function LastWritten(calls: seq<Assign>, name: string): Option<string>
    decreases |calls|
  {
    if |calls| == 0 then None
    else if calls[|calls| - 1].name == name then Some(calls[|calls| - 1].value)
    else LastWritten(calls[..|calls| - 1], name)
  }

  /** In two runs of calls made one after the other, the second run's last
      write to a name wins; the first run's counts only where the second is silent. */
  lemma {:induction false} LastWrittenConcat(a: seq<Assign>, b: seq<Assign>, name: string)
    ensures LastWritten(a + b, name) ==
              if LastWritten(b, name).Some? then LastWritten(b, name) else LastWritten(a, name)
    decreases |b|
  {
    if |b| > 0 {
      var ab := a + b;
      assert ab[..|ab| - 1] == a + b[..|b| - 1];
      assert ab[|ab| - 1] == b[|b| - 1];
      LastWrittenConcat(a, b[..|b| - 1], name);
    } else {
      assert a + b == a;
    }
  }

  /** A single call writes exactly its own name. */
  lemma LastWrittenSingle(call: Assign, name: string)
    ensures LastWritten([call], name) == if call.name == name then Some(call.value) else None
  {
    assert [call][..0] == [];
  }

  /** LastWrittenConcat for every name at once. */
  lemma LastWrittenConcatAll(a: seq<Assign>, b: seq<Assign>)
    ensures forall n :: LastWritten(a + b, n) ==
              if LastWritten(b, n).Some? then LastWritten(b, n) else LastWritten(a, n)
  {
    forall n ensures LastWritten(a + b, n) ==
                       if LastWritten(b, n).Some? then LastWritten(b, n) else LastWritten(a, n) {
      LastWrittenConcat(a, b, n);
    }
  }

  /** LastWrittenSingle for every name at once. */
  lemma LastWrittenSingleAll(call: Assign)
    ensures forall n :: LastWritten([call], n) == if call.name == n then Some(call.value) else None
  {
    forall n ensures LastWritten([call], n) == if call.name == n then Some(call.value) else None {
      LastWrittenSingle(call, n);
    }
  }

  /** Names written by a sequence of calls. */
  function Written(calls: seq<Assign>): set<string>
  {
    set i | 0 <= i < |calls| :: calls[i].name
  }

  /** Reading an attribute after a run of set_attr calls yields the last value
      written to it, or what the element held before if no call names it. */
  lemma {:induction false} SetAllLookup(e: Element, calls: seq<Assign>, name: string)
    ensures Attribute(SetAll(e, calls), name) ==
              if LastWritten(calls, name).Some? then LastWritten(calls, name) else Attribute(e, name)
  {
    if |calls| > 0 {
      SetAllLookup(e, calls[..|calls| - 1], name);
    }
  }

  /** SetAllLookup for every name at once. */
  lemma SetAllLookupAll(e: Element, calls: seq<Assign>)
    ensures forall n :: Attribute(SetAll(e, calls), n) ==
              if LastWritten(calls, n).Some? then LastWritten(calls, n) else Attribute(e, n)
  {
    forall n ensures Attribute(SetAll(e, calls), n) ==
                       if LastWritten(calls, n).Some? then LastWritten(calls, n) else Attribute(e, n) {
      SetAllLookup(e, calls, n);
    }
  }

  /** A name is written by some call exactly when the last-written value exists. */
  lemma {:induction false} LastWrittenExists(calls: seq<Assign>, name: string)
    ensures LastWritten(calls, name).Some? <==> name in Written(calls)
  {
    if |calls| > 0 {
      var init := calls[..|calls| - 1];
      LastWrittenExists(init, name);
      assert Written(calls) == Written(init) + {calls[|calls| - 1].name} by {
        forall n | n in Written(calls) ensures n in Written(init) + {calls[|calls| - 1].name} {
          var i :| 0 <= i < |calls| && calls[i].name == n;
          if i < |calls| - 1 {
            assert init[i] == calls[i];
          }
        }
        forall n | n in Written(init) ensures n in Written(calls) {
          var i :| 0 <= i < |init| && init[i].name == n;
          assert calls[i] == init[i];
        }
      }
    }
  }

  /** Frame: set_attr calls leave every name they do not write as it was. */
  lemma SetAllFrame(e: Element, calls: seq<Assign>, name: string)
    requires name !in Written(calls)
    ensures Attribute(SetAll(e, calls), name) == Attribute(e, name)
  {
    LastWrittenExists(calls, name);
    SetAllLookup(e, calls, name);
  }

  /** On an element with no attributes, a name that no call sets reads as absent. */
  lemma NeverSetIsAbsent(calls: seq<Assign>, name: string)
    requires name !in Written(calls)
    ensures Attribute(SetAll(map[], calls), name) == None
  {
    SetAllFrame(map[], calls, name);
  }

  /** Two elements that agree on every attribute lookup are the same element. */
  lemma AttributeExtensional(a: Element, b: Element)
    requires forall n :: Attribute(a, n) == Attribute(b, n)
    ensures a == b
  {
    forall n | n in a ensures n in b && a[n] == b[n] {
      assert Attribute(a, n) == Attribute(b, n);
    }
    forall n | n in b ensures n in a {
      assert Attribute(a, n) == Attribute(b, n);
    }
  }

  /** Repeating a run of set_attr calls changes nothing the first run did not. */
  lemma SetAllIdempotent(e: Element, calls: seq<Assign>)
    ensures SetAll(SetAll(e, calls), calls) == SetAll(e, calls)
  {
    var once := SetAll(e, calls);
    forall n ensures Attribute(SetAll(once, calls), n) == Attribute(once, n) {
      SetAllLookup(once, calls, n);
      SetAllLookup(e, calls, n);
    }
    AttributeExtensional(SetAll(once, calls), once);
  }
}
