/**
  The handful of JavaScript built-ins the router relies on, stated once:
  an optional value (a property that may be `undefined`), `Array.prototype.find`,
  `Array.prototype.join` and `String.prototype.includes`.
 */
module JsCore {

  /** A value that may be `undefined`. */
  datatype Option<+T> = None | Some(value: T) {

    /** `x || fallback` for a value whose only falsy state is `undefined`. */
    function GetOr(fallback: T): (r: T)
      ensures Some? ==> r == value
      ensures None? ==> r == fallback
    {
      match this
      case Some(v) => v
      case None => fallback
    }
  }

  /** `s.find(p)`, reported as the index of the element found. */
  function FindFirst<T>(s: seq<T>, p: T -> bool): (r: Option<nat>)
    ensures r.Some? ==> r.value < |s| && p(s[r.value])
    ensures r.Some? ==> forall j :: 0 <= j < r.value ==> !p(s[j])
    ensures r.None? ==> forall j :: 0 <= j < |s| ==> !p(s[j])
    decreases |s|
  {
    if |s| == 0 then None
    else if p(s[0]) then Some(0)
    else
      match FindFirst(s[1..], p)
      case None => None
      case Some(i) => Some(i + 1)
  }

  /** `xs.join(sep)`: no separator before the first piece, one between each two. */
  function Join(xs: seq<string>, sep: string): (r: string)
    ensures |xs| > 0 ==> |xs[0]| <= |r| && r[..|xs[0]|] == xs[0]
    decreases |xs|
  {
    if |xs| == 0 then ""
    else if |xs| == 1 then xs[0]
    else xs[0] + sep + Join(xs[1..], sep)
  }

  /** The summed length of the pieces. */
  function TotalLength(xs: seq<string>): nat
    decreases |xs|
  {
    if |xs| == 0 then 0 else |xs[0]| + TotalLength(xs[1..])
  }

  /** Where piece `k` starts in `Join(xs, sep)`: every earlier piece followed by one separator. */
  function Offset(xs: seq<string>, sep: string, k: nat): nat
    requires k <= |xs|
    decreases k
  {
    if k == 0 then 0 else |xs[0]| + |sep| + Offset(xs[1..], sep, k - 1)
  }

  /** A joined string is the pieces plus exactly one separator fewer than there are pieces. */
  lemma {:induction false} JoinLength(xs: seq<string>, sep: string)
    ensures |xs| == 0 ==> |Join(xs, sep)| == 0
    ensures |xs| > 0 ==> |Join(xs, sep)| == TotalLength(xs) + (|xs| - 1) * |sep|
    decreases |xs|
  {
    if |xs| > 1 {
      JoinLength(xs[1..], sep);
      assert (|xs| - 1) * |sep| == (|xs| - 2) * |sep| + |sep|;
    }
  }

  /** A slice of the right operand of a concatenation, read through the concatenation. */
  lemma SliceOfConcat(a: string, b: string, i: nat, j: nat)
    requires i <= j <= |b|
    ensures (a + b)[|a| + i .. |a| + j] == b[i..j]
  {
  }

  /** A slice of the left operand of a concatenation, read through the concatenation. */
  lemma SliceOfConcatLeft(a: string, b: string, i: nat, j: nat)
    requires i <= j <= |a|
    ensures (a + b)[i..j] == a[i..j]
  {
  }

  /** A join of two or more pieces is the first piece, a separator, and the join of the rest. */
  lemma JoinCons(xs: seq<string>, sep: string)
    requires |xs| > 1
    ensures Join(xs, sep) == (xs[0] + sep) + Join(xs[1..], sep)
  {
  }

  /** Piece `k` sits at `Offset(xs, sep, k)`. */
  lemma {:induction false} JoinPiece(xs: seq<string>, sep: string, k: nat)
    requires k < |xs|
    ensures Offset(xs, sep, k) + |xs[k]| <= |Join(xs, sep)|
    ensures Join(xs, sep)[Offset(xs, sep, k) .. Offset(xs, sep, k) + |xs[k]|] == xs[k]
    decreases k
  {
    if |xs| == 1 {
      assert Join(xs, sep) == xs[0];
    } else {
      var head, tail := xs[0] + sep, Join(xs[1..], sep);
      JoinCons(xs, sep);
      if k == 0 {
        SliceOfConcatLeft(head, tail, 0, |xs[0]|);
        assert head[0..|xs[0]|] == xs[0];
      } else {
        var x := xs[k];
        assert xs[1..][k - 1] == x;
        JoinPiece(xs[1..], sep, k - 1);
        var o := Offset(xs[1..], sep, k - 1);
        assert Offset(xs, sep, k) == |head| + o;
        assert tail[o .. o + |x|] == x;
        SliceOfConcat(head, tail, o, o + |x|);
      }
    }
  }

  /** Exactly one separator follows every piece but the last, and the next piece starts after it. */
  lemma {:induction false} JoinSeparator(xs: seq<string>, sep: string, k: nat)
    requires k + 1 < |xs|
    ensures Offset(xs, sep, k + 1) == Offset(xs, sep, k) + |xs[k]| + |sep|
    ensures Offset(xs, sep, k + 1) <= |Join(xs, sep)|
    ensures Join(xs, sep)[Offset(xs, sep, k) + |xs[k]| .. Offset(xs, sep, k + 1)] == sep
    decreases k
  {
    var head := xs[0] + sep;
    JoinCons(xs, sep);
    if k == 0 {
      assert Offset(xs, sep, 1) == |head|;
      SliceOfConcatLeft(head, Join(xs[1..], sep), |xs[0]|, |head|);
      assert head[|xs[0]| .. |head|] == sep;
    } else {
      JoinSeparator(xs[1..], sep, k - 1);
      var o := Offset(xs[1..], sep, k - 1) + |xs[k]|;
      SliceOfConcat(head, Join(xs[1..], sep), o, o + |sep|);
    }
  }

  /** `sub` occurs in `s` starting at index `i`. */
  ghost predicate OccursAt(s: string, sub: string, i: nat)
  {
    i + |sub| <= |s| && s[i .. i + |sub|] == sub
  }

  /** `s.includes(sub)`. */
  function Includes(s: string, sub: string): (r: bool)
    ensures r ==> |sub| <= |s|
    ensures |sub| == 0 ==> r
    decreases |s|
  {
    if |s| < |sub| then false
    else if s[..|sub|] == sub then true
    else Includes(s[1..], sub)
  }

  /** `Includes` holds exactly when `sub` occurs somewhere in `s`. */
  lemma {:induction false} IncludesIff(s: string, sub: string)
    ensures Includes(s, sub) <==> exists i: nat :: OccursAt(s, sub, i)
    decreases |s|
  {
    if |s| < |sub| {
    } else if s[..|sub|] == sub {
      assert OccursAt(s, sub, 0);
    } else {
      IncludesIff(s[1..], sub);
      if Includes(s[1..], sub) {
        var i: nat :| OccursAt(s[1..], sub, i);
        assert s[1..][i .. i + |sub|] == s[i + 1 .. i + 1 + |sub|];
        assert OccursAt(s, sub, i + 1);
      } else {
        forall i: nat | OccursAt(s, sub, i)
          ensures false
        {
          if i > 0 {
            assert s[1..][i - 1 .. i - 1 + |sub|] == s[i .. i + |sub|];
            assert OccursAt(s[1..], sub, i - 1);
          }
        }
      }
    }
  }
}
