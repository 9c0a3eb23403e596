/** Values shared by every component of the model. */
module Basics {

  datatype Option<+T> = None | Some(value: T) {
    function UnwrapOr(default: T): T {
      if Some? then value else default
    }
  }

  datatype Result<+T, +E> = Ok(value: T) | Err(error: E)
}

/** Three-way comparison, as in `std::cmp::Ordering`. */
module Orders {

  datatype Ordering = Less | Equal | Greater {

    function Reverse(): Ordering {
      match this
      case Less => Greater
      case Equal => Equal
      case Greater => Less
    }

    function Then(next: Ordering): Ordering {
      if Equal? then next else this
    }
  }

  function CompareInt(a: int, b: int): Ordering {
    if a < b then Less else if a == b then Equal else Greater
  }

  function CompareReal(a: real, b: real): Ordering {
    if a < b then Less else if a == b then Equal else Greater
  }

  function CompareBool(a: bool, b: bool): Ordering {
    if a == b then Equal else if b then Less else Greater
  }

  /** Lexicographic order by code point, which is the order of UTF-8 bytes. */
  function CompareString(a: string, b: string): Ordering {
    if a == [] && b == [] then Equal
    else if a == [] then Less
    else if b == [] then Greater
    else if a[0] < b[0] then Less
    else if a[0] > b[0] then Greater
    else CompareString(a[1..], b[1..])
  }

  lemma {:induction false} CompareStringReverse(a: string, b: string)
    ensures CompareString(a, b) == CompareString(b, a).Reverse()
    ensures CompareString(a, b) == Equal <==> a == b
  {
    if a != [] && b != [] {
      CompareStringReverse(a[1..], b[1..]);
      if a[0] == b[0] {
        assert a == [a[0]] + a[1..];
        assert b == [b[0]] + b[1..];
      }
    }
  }

  lemma {:induction false} CompareStringTransitive(a: string, b: string, c: string)
    requires CompareString(a, b) != Greater && CompareString(b, c) != Greater
    ensures CompareString(a, c) != Greater
    ensures CompareString(a, b) == Less || CompareString(b, c) == Less ==> CompareString(a, c) == Less
  {
    if a != [] && b != [] && c != [] && a[0] == b[0] && b[0] == c[0] {
      CompareStringTransitive(a[1..], b[1..], c[1..]);
    }
  }

  /** `a` ends where `b` goes on, or has the smaller character where they first differ. */
  ghost predicate Before(a: string, b: string) {
    exists k: nat :: FirstDifference(a, b, k) && (k == |a| || (k < |b| && a[k] < b[k]))
  }

  ghost predicate FirstDifference(a: string, b: string, k: nat) {
    && k <= |a| && k <= |b| && (forall j :: 0 <= j < k ==> a[j] == b[j])
    && (k < |a| || k < |b|) && (k < |a| && k < |b| ==> a[k] != b[k])
  }

  lemma {:induction false} CompareStringIsBefore(a: string, b: string)
    ensures CompareString(a, b) == Less <==> Before(a, b)
    ensures CompareString(a, b) == Greater <==> Before(b, a)
  {
    if a == [] || b == [] || a[0] != b[0] {
      assert a != b ==> FirstDifference(a, b, 0) && FirstDifference(b, a, 0);
    } else {
      CompareStringIsBefore(a[1..], b[1..]);
      Shifted(a, b);
      Shifted(b, a);
    }
  }

  lemma {:induction false} Shifted(a: string, b: string)
    requires a != [] && b != [] && a[0] == b[0]
    ensures Before(a, b) <==> Before(a[1..], b[1..])
  {
    if Before(a, b) {
      var k: nat :| FirstDifference(a, b, k) && (k == |a| || (k < |b| && a[k] < b[k]));
      assert FirstDifference(a[1..], b[1..], k - 1);
    }
    if Before(a[1..], b[1..]) {
      var k: nat :| FirstDifference(a[1..], b[1..], k) && (k == |a[1..]| || (k < |b[1..]| && a[1..][k] < b[1..][k]));
      forall j | 0 <= j < k + 1 ensures a[j] == b[j] {
        assert j > 0 ==> a[j] == a[1..][j - 1] && b[j] == b[1..][j - 1];
      }
      assert FirstDifference(a, b, k + 1);
    }
  }
}
