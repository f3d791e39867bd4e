/** Small vocabulary shared by every module: optional values, results of operations that can
    raise, Python's `str.strip`, and the code-point order on strings. */
module Base {

  datatype Option<T> = None | Some(value: T) {
    function GetOr(default: T): T {
      if Some? then value else default
    }
  }

  /** What the source raises. */
  datatype Error =
    | CallNotFound
    | InvalidStateTransition
    | InputRequestNotFound
    | EmptyTranscript
    | InvalidCursor
    | PolicyDenied
    | CancelFailed
    | InvalidTemplate
    | MissingValue
    | SinkFailed

  datatype Result<T> = Ok(value: T) | Err(error: Error)

  /** Characters removed by Python's `str.strip` without arguments. */
  predicate IsSpace(c: char) {
    var n := c as int;
    9 <= n <= 13 || 28 <= n <= 32 || n == 0x85 || n == 0xA0 || n == 0x1680 || 0x2000 <= n <= 0x200A
    || n == 0x2028 || n == 0x2029 || n == 0x202F || n == 0x205F || n == 0x3000
  }

  function StripLeft(s: string): (r: string)
    ensures r == [] || !IsSpace(r[0])
    ensures |r| <= |s|
  {
    if s != [] && IsSpace(s[0]) then StripLeft(s[1..]) else s
  }

  function StripRight(s: string): (r: string)
    ensures r == [] || !IsSpace(r[|r| - 1])
    ensures r <= s
  {
    if s != [] && IsSpace(s[|s| - 1]) then StripRight(s[..|s| - 1]) else s
  }

  function Strip(s: string): (r: string)
    ensures r == [] || (!IsSpace(r[0]) && !IsSpace(r[|r| - 1]))
  {
    StripRight(StripLeft(s))
  }

  /** Python's `<` on strings: lexicographic by code point. */
  predicate LexLess(a: string, b: string) {
    b != [] && (a == [] || a[0] < b[0] || (a[0] == b[0] && LexLess(a[1..], b[1..])))
  }

  lemma {:induction false} LexTotal(a: string, b: string)
    ensures a == b || LexLess(a, b) || LexLess(b, a)
    ensures !(LexLess(a, b) && LexLess(b, a))
    ensures !LexLess(a, a)
    decreases |a|
  {
    if a != [] && b != [] {
      LexTotal(a[1..], b[1..]);
      LexTotal(a[1..], a[1..]);
      assert a == [a[0]] + a[1..] && b == [b[0]] + b[1..];
    } else if a != [] {
      LexTotal(a[1..], a[1..]);
    }
  }

  lemma {:induction false} LexTransitive(a: string, b: string, c: string)
    requires LexLess(a, b) && LexLess(b, c)
    ensures LexLess(a, c)
    decreases |a|
  {
    if a != [] && a[0] == b[0] && b[0] == c[0] {
      LexTransitive(a[1..], b[1..], c[1..]);
    }
  }

  /** Where two strings differ first decides; a proper prefix comes before the longer string. */
  lemma {:induction false} LexLessIff(a: string, b: string)
    ensures LexLess(a, b) <==>
            || (a != b && a <= b)
            || exists k :: 0 <= k < |a| && k < |b| && a[..k] == b[..k] && a[k] < b[k]
    decreases |a|
  {
    if a != [] && b != [] && a[0] == b[0] {
      var x, y := a[1..], b[1..];
      LexLessIff(x, y);
      assert a == [a[0]] + x && b == [b[0]] + y;
      if k :| 0 <= k < |x| && k < |y| && x[..k] == y[..k] && x[k] < y[k] {
        assert a[..k + 1] == [a[0]] + x[..k] && b[..k + 1] == [b[0]] + y[..k] && a[k + 1] < b[k + 1];
      }
      if k :| 0 <= k < |a| && k < |b| && a[..k] == b[..k] && a[k] < b[k] {
        assert k > 0 && x[..k - 1] == a[..k][1..] && y[..k - 1] == b[..k][1..] && x[k - 1] < y[k - 1];
      }
    } else if a != [] && b != [] {
      assert a[..0] == b[..0] == [];
      if k :| 0 <= k < |a| && k < |b| && a[..k] == b[..k] && a[k] < b[k] {
        assert k > 0 ==> a[..k][0] == b[..k][0];
      }
    }
  }

  /** `Strip` takes white space from both ends and nothing else. */
  lemma {:induction false} StripTakesTheEnds(s: string) returns (left: string, right: string)
    ensures s == left + Strip(s) + right
    ensures (forall c <- left :: IsSpace(c)) && (forall c <- right :: IsSpace(c))
  {
    left := LeftTakesTheStart(s);
    right := RightTakesTheEnd(StripLeft(s));
  }

  lemma {:induction false} LeftTakesTheStart(s: string) returns (left: string)
    ensures s == left + StripLeft(s) && forall c <- left :: IsSpace(c)
    decreases |s|
  {
    left := [];
    if s != [] && IsSpace(s[0]) {
      left := LeftTakesTheStart(s[1..]);
      left := [s[0]] + left;
    }
  }

  lemma {:induction false} RightTakesTheEnd(s: string) returns (right: string)
    ensures s == StripRight(s) + right && forall c <- right :: IsSpace(c)
    decreases |s|
  {
    right := [];
    if s != [] && IsSpace(s[|s| - 1]) {
      right := RightTakesTheEnd(s[..|s| - 1]);
      right := right + [s[|s| - 1]];
    }
  }

  /** The 29 characters of white space in the Basic Multilingual Plane; there are no others. */
  lemma SpaceCharacters(c: char)
    ensures IsSpace(c) <==> c as int in {
              0x09, 0x0A, 0x0B, 0x0C, 0x0D, 0x1C, 0x1D, 0x1E, 0x1F, 0x20, 0x85, 0xA0, 0x1680,
              0x2000, 0x2001, 0x2002, 0x2003, 0x2004, 0x2005, 0x2006, 0x2007, 0x2008, 0x2009, 0x200A,
              0x2028, 0x2029, 0x202F, 0x205F, 0x3000}
  {
  }
}
