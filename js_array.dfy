/** The part of JavaScript array semantics the forms rely on: writing past the end of an array. */
module JsArray {
  import opened Wrappers

  /** The copy-then-write `const b = [...a]; b[i] = v;` on a JavaScript array of optional slots. A write
      inside the array replaces one slot; a write at or past the end grows the array to `i + 1`, the
      slots between the old end and `i` being holes (`None`, which read back as `undefined`). */
  function Assign<T>(a: seq<Option<T>>, i: nat, v: T): (r: seq<Option<T>>)
    ensures |r| == if i < |a| then |a| else i + 1
    ensures r[i] == Some(v)
    ensures forall j :: 0 <= j < |a| && j != i ==> r[j] == a[j]
    ensures forall j :: |a| <= j < |r| && j != i ==> r[j] == None
  {
    if i < |a| then a[i := Some(v)] else a + seq(i - |a|, _ => None) + [Some(v)]
  }

  /** `a[i] || []`: the list stored at slot `i`, or the empty list when the slot is a hole or lies
      past the end. This is what a `Select` is given as its options. */
  function SlotOrEmpty<T>(a: seq<Option<seq<T>>>, i: nat): seq<T>
  {
    if i < |a| && a[i].Some? then a[i].value else []
  }
}
