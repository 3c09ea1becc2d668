/** Small helpers: C-string termination and the centre of a triangle. */
module Helpers {
  import opened Results

  /** A byte (`u8`). */
  type Byte = b: nat | b < 256

  const Nul: Byte := 0

  /** `add_null_term`: a copy of the bytes with a NUL appended. The input is a value
      and is not changed. */
  function AddNullTerm(str: seq<Byte>): (r: seq<Byte>)
    ensures |r| == |str| + 1
    ensures r[..|str|] == str
    ensures r[|str|] == Nul
  {
    str + [Nul]
  }

  /** What C code reading a NUL-terminated string sees: the bytes before the first NUL
      (None when there is no NUL to stop at). */
  function CString(bytes: seq<Byte>): Option<seq<Byte>>
    decreases |bytes|
  {
    if bytes == [] then None
    else if bytes[0] == Nul then Some([])
    else
      match CString(bytes[1..])
      case None => None
      case Some(rest) => Some([bytes[0]] + rest)
  }

  /** A name without NUL bytes reaches C intact: `GetUniformLocation` sees exactly it. */
  lemma {:induction false} CStringOfAddNullTerm(str: seq<Byte>)
    requires Nul !in str
    ensures CString(AddNullTerm(str)) == Some(str)
    decreases |str|
  {
    if str != [] {
      assert AddNullTerm(str)[1..] == AddNullTerm(str[1..]);
      CStringOfAddNullTerm(str[1..]);
      assert [str[0]] + str[1..] == str;
    }
  }

  /** A name with a NUL byte is cut short at it. */
  lemma {:induction false} CStringStopsAtNul(str: seq<Byte>, i: nat)
    requires i < |str| && str[i] == Nul && Nul !in str[..i]
    ensures CString(AddNullTerm(str)) == Some(str[..i])
    decreases i
  {
    if i > 0 {
      assert AddNullTerm(str)[1..] == AddNullTerm(str[1..]);
      assert str[1..][..i - 1] == str[..i][1..];
      CStringStopsAtNul(str[1..], i - 1);
      assert [str[0]] + str[..i][1..] == str[..i];
    }
  }

  function Min3(a: real, b: real, c: real): real {
    if a <= b && a <= c then a else if b <= c then b else c
  }

  function Max3(a: real, b: real, c: real): real {
    if a >= b && a >= c then a else if b >= c then b else c
  }

  /** `calculate_center_of_triangle`: the coordinate-wise mean of the corners, which
      lies inside the triangle's bounding box. */
  function CenterOfTriangle(p1: (real, real), p2: (real, real), p3: (real, real)): (c: (real, real))
    ensures 3.0 * c.0 == p1.0 + p2.0 + p3.0 && 3.0 * c.1 == p1.1 + p2.1 + p3.1
    ensures Min3(p1.0, p2.0, p3.0) <= c.0 <= Max3(p1.0, p2.0, p3.0)
    ensures Min3(p1.1, p2.1, p3.1) <= c.1 <= Max3(p1.1, p2.1, p3.1)
  {
    ((p1.0 + p2.0 + p3.0) / 3.0, (p1.1 + p2.1 + p3.1) / 3.0)
  }

  /** The centre does not depend on the order the corners are given in. */
  lemma CenterIsSymmetric(p1: (real, real), p2: (real, real), p3: (real, real))
    ensures CenterOfTriangle(p1, p2, p3) == CenterOfTriangle(p2, p3, p1)
    ensures CenterOfTriangle(p1, p2, p3) == CenterOfTriangle(p2, p1, p3)
  {
  }

  /** The triangle of the unit test, in exact arithmetic: (8/3, 5/3). */
  lemma CenterExample()
    ensures CenterOfTriangle((0.0, 0.0), (5.0, 0.0), (3.0, 5.0)) == (8.0 / 3.0, 5.0 / 3.0)
  {
  }
}
