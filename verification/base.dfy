/** Shared vocabulary of the model: fixed-width integers, optional values,
    opaque native handles and two sequence helpers used to count events in
    traces. */
module AlienBase {

  /** `u32` of the source (an unsigned 32-bit integer). */
  type u32 = x: int | 0 <= x < 0x1_0000_0000

  datatype Option<+T> = None | Some(value: T)

  /** An opaque native object: a non-null COM interface pointer, a window
      handle, an instance handle or a device context. `None` of type
      `Option<Handle>` plays the role of `nullptr`. */
  datatype Handle = Handle(id: nat)

  /** The elements of `s` that satisfy `p`, in their original order. */
  function Filter<T>(s: seq<T>, p: T -> bool): (r: seq<T>)
    ensures |r| <= |s|
  {
    if s == [] then [] else (if p(s[0]) then [s[0]] else []) + Filter(s[1..], p)
  }

  lemma {:induction false} FilterAppend<T>(a: seq<T>, b: seq<T>, p: T -> bool)
    ensures Filter(a + b, p) == Filter(a, p) + Filter(b, p)
  {
    if a == [] {
      assert a + b == b;
    } else {
      var h := if p(a[0]) then [a[0]] else [];
      assert (a + b)[0] == a[0];
      assert (a + b)[1..] == a[1..] + b;
      FilterAppend(a[1..], b, p);
      calc {
        Filter(a + b, p);
        h + Filter(a[1..] + b, p);
        h + (Filter(a[1..], p) + Filter(b, p));
        (h + Filter(a[1..], p)) + Filter(b, p);
      }
    }
  }

  lemma {:induction false} FilterNone<T>(s: seq<T>, p: T -> bool)
    requires forall i :: 0 <= i < |s| ==> !p(s[i])
    ensures Filter(s, p) == []
  {
    if s != [] {
      FilterNone(s[1..], p);
    }
  }

  lemma {:induction false} FilterAll<T>(s: seq<T>, p: T -> bool)
    requires forall i :: 0 <= i < |s| ==> p(s[i])
    ensures Filter(s, p) == s
  {
    if s != [] {
      FilterAll(s[1..], p);
    }
  }

  lemma FilterUnit<T>(x: T, p: T -> bool)
    ensures Filter([x], p) == if p(x) then [x] else []
  {
    assert [x][1..] == [];
  }

  /** Filtering `s` followed by two more elements. */
  lemma FilterTwo<T>(s: seq<T>, x: T, y: T, p: T -> bool)
    ensures Filter(s + [x] + [y], p) ==
      Filter(s, p) + (if p(x) then [x] else []) + (if p(y) then [y] else [])
  {
    FilterAppend(s + [x], [y], p);
    FilterAppend(s, [x], p);
    FilterUnit(x, p);
    FilterUnit(y, p);
  }

  /** Only the last element of `s + [x]` passes the filter. */
  lemma FilterLast<T>(s: seq<T>, x: T, p: T -> bool)
    requires forall i :: 0 <= i < |s| ==> !p(s[i])
    requires p(x)
    ensures Filter(s + [x], p) == [x]
  {
    FilterAppend(s, [x], p);
    FilterNone(s, p);
    assert [x][1..] == [];
  }

  lemma AppendAssoc<T>(a: seq<T>, b: seq<T>, c: seq<T>)
    ensures a + (b + c) == (a + b) + c
  {
  }

  /** `s` written `n` times in a row. */
  function Repeat<T>(s: seq<T>, n: nat): seq<T>
  {
    if n == 0 then [] else s + Repeat(s, n - 1)
  }
}
