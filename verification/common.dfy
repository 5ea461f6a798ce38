/** Shared vocabulary: the Python exceptions the modelled code can raise, a
    failure-compatible Result, an Option, and the handful of `str` methods the
    scripts rely on (`split`, `join`, `endswith`, `lower`, `strip`). */
module Common {

  /** The Python exception classes the modelled code raises. */
  datatype Error = ValueError | IndexError | KeyError | ZeroDivisionError | NameError

  datatype Option<+T> = None | Some(value: T)

  /** Either a value or the exception a Python call would raise. */
  datatype Result<+T> = Ok(value: T) | Err(error: Error) {
    predicate IsFailure() {
      Err?
    }

    function PropagateFailure<U>(): Result<U>
      requires Err?
    {
      Err(error)
    }

    function Extract(): T
      requires Ok?
    {
      value
    }
  }

  /** Python's `float(text)`, abstracted: None where it raises ValueError.
      Only finite results are expressible. */
  type FloatParser = string -> Option<real>

  /** `math.pi`, written out to the precision of a double's shortest repr. */
  const PI: real := 3.141592653589793

  /** `math.radians` / `x * math.pi / 180`. */
  function Radians(degrees: real): real {
    degrees * PI / 180.0
  }

  /** Python's `s.split(c)` for a one-character separator: every occurrence
      of `c` cuts, empty pieces are kept, and there is always one piece. */
  function Split(s: string, c: char): (r: seq<string>)
    ensures |r| >= 1
    ensures forall i :: 0 <= i < |r| ==> c !in r[i]
    ensures r[0] <= s && (|r[0]| < |s| ==> s[|r[0]|] == c)
    ensures c !in s ==> r == [s]
    ensures |r| == Count(s, c) + 1
  {
    if |s| == 0 then [""]
    else
      var rest := Split(s[1..], c);
      if s[0] == c then [""] + rest
      else
        assert s == [s[0]] + s[1..];
        [[s[0]] + rest[0]] + rest[1..]
  }

  /** The number of occurrences of `c` in `s`. */
  function Count(s: string, c: char): nat {
    if |s| == 0 then 0 else (if s[0] == c then 1 else 0) + Count(s[1..], c)
  }

  lemma {:induction false} CountAppend(a: string, b: string, c: char)
    ensures Count(a + b, c) == Count(a, c) + Count(b, c)
  {
    if |a| == 0 {
      assert a + b == b;
    } else {
      assert (a + b)[1..] == a[1..] + b;
      CountAppend(a[1..], b, c);
    }
  }

  /** Python's `sep.join(parts)`. */
  function Join(parts: seq<string>, sep: string): string {
    if |parts| == 0 then ""
    else if |parts| == 1 then parts[0]
    else parts[0] + sep + Join(parts[1..], sep)
  }

  lemma {:induction false} JoinAppend(parts: seq<string>, p: string, sep: string)
    requires |parts| >= 1
    ensures Join(parts + [p], sep) == Join(parts, sep) + sep + p
  {
    if |parts| == 1 {
      assert parts + [p] == [parts[0], p];
    } else {
      assert (parts + [p])[1..] == parts[1..] + [p];
      JoinAppend(parts[1..], p, sep);
    }
  }

  /** Splitting at a separator occurrence splits the piece lists. */
  lemma {:induction false} SplitAppend(a: string, b: string, c: char)
    ensures Split(a + [c] + b, c) == Split(a, c) + Split(b, c)
  {
    if |a| == 0 {
      assert a + [c] + b == [c] + b;
      SplitCons(c, b, c);
    } else {
      var t := a[1..] + [c] + b;
      assert a + [c] + b == [a[0]] + t;
      assert a == [a[0]] + a[1..];
      SplitCons(a[0], t, c);
      SplitCons(a[0], a[1..], c);
      SplitAppend(a[1..], b, c);
      ConsFirst(a[0], Split(a[1..], c), Split(b, c), c);
    }
  }

  /** One unfolding of `Split` on a non-empty string. */
  lemma SplitCons(x: char, t: string, c: char)
    ensures Split([x] + t, c)
         == if x == c then [""] + Split(t, c) else [[x] + Split(t, c)[0]] + Split(t, c)[1..]
  {
    assert ([x] + t)[1..] == t;
  }

  lemma ConsFirst(x: char, p: seq<string>, q: seq<string>, c: char)
    requires |p| >= 1
    ensures x == c ==> [""] + (p + q) == ([""] + p) + q
    ensures x != c ==> [[x] + (p + q)[0]] + (p + q)[1..] == ([[x] + p[0]] + p[1..]) + q
  {
    assert (p + q)[0] == p[0];
    assert (p + q)[1..] == p[1..] + q;
  }

  lemma JoinExtendFirst(x: string, parts: seq<string>, sep: string)
    requires |parts| >= 1
    ensures Join([x + parts[0]] + parts[1..], sep) == x + Join(parts, sep)
  {
    var q := [x + parts[0]] + parts[1..];
    if |parts| > 1 {
      assert q[1..] == parts[1..];
    }
  }

  /** Joining the pieces of a split gives the original string back. */
  lemma {:induction false} JoinSplit(s: string, c: char)
    ensures Join(Split(s, c), [c]) == s
  {
    if |s| > 0 {
      var rest := Split(s[1..], c);
      JoinSplit(s[1..], c);
      assert s == [s[0]] + s[1..];
      if s[0] == c {
        assert ([""] + rest)[1..] == rest;
      } else {
        JoinExtendFirst([s[0]], rest, [c]);
      }
    }
  }

  /** Splitting a join of separator-free pieces recovers the pieces. */
  lemma {:induction false} SplitJoin(parts: seq<string>, c: char)
    requires |parts| >= 1
    requires forall i :: 0 <= i < |parts| ==> c !in parts[i]
    ensures Split(Join(parts, [c]), c) == parts
  {
    if |parts| == 1 {
    } else {
      SplitJoin(parts[1..], c);
      SplitAppend(parts[0], Join(parts[1..], [c]), c);
      assert parts == [parts[0]] + parts[1..];
    }
  }

  /** A separator-free prefix joins the first piece of what follows it. */
  lemma {:induction false} SplitPrefix(p: string, s: string, c: char)
    requires c !in p
    ensures Split(p + s, c) == [p + Split(s, c)[0]] + Split(s, c)[1..]
  {
    var t := Split(s, c);
    if |p| == 0 {
      assert p + s == s && p + t[0] == t[0];
      assert t == [t[0]] + t[1..];
    } else {
      var q := p + s;
      assert q[0] != c by {
        assert q[0] == p[0] && p[0] in p;
      }
      assert q[1..] == p[1..] + s;
      SplitPrefix(p[1..], s, c);
      var rest := Split(q[1..], c);
      assert Split(q, c) == [[q[0]] + rest[0]] + rest[1..];
      assert [q[0]] + rest[0] == p + t[0] by {
        assert rest[0] == p[1..] + t[0];
        assert p == [q[0]] + p[1..];
      }
    }
  }

  lemma NotInConcat<T>(x: T, a: seq<T>, b: seq<T>)
    requires x !in a && x !in b
    ensures x !in a + b
  {
  }

  function Last<T>(s: seq<T>): T
    requires |s| > 0
  {
    s[|s| - 1]
  }

  predicate EndsWith(s: string, suffix: string) {
    |suffix| <= |s| && s[|s| - |suffix|..] == suffix
  }

  predicate StartsWith(s: string, prefix: string) {
    |prefix| <= |s| && s[..|prefix|] == prefix
  }

  /** `str.lower` on the ASCII letters; other characters are unchanged. */
  function LowerChar(ch: char): char {
    if 'A' <= ch <= 'Z' then (ch as int - 'A' as int + 'a' as int) as char else ch
  }

  function Lower(s: string): (r: string)
    ensures |r| == |s|
    ensures forall i :: 0 <= i < |s| ==> r[i] == LowerChar(s[i])
  {
    if |s| == 0 then "" else [LowerChar(s[0])] + Lower(s[1..])
  }

  /** The characters for which Python's `str.isspace` holds. */
  predicate IsSpace(ch: char) {
    ch == ' ' || ('\t' <= ch <= '\r') || ('\U{1c}' <= ch <= '\U{1f}')
    || ch == '\U{85}' || ch == '\U{a0}' || ch == '\U{1680}'
    || ('\U{2000}' <= ch <= '\U{200a}') || ch == '\U{2028}' || ch == '\U{2029}'
    || ch == '\U{202f}' || ch == '\U{205f}' || ch == '\U{3000}'
  }

  function StripLeft(s: string): (r: string)
    ensures |r| <= |s| && r == s[|s| - |r|..]
    ensures |r| > 0 ==> !IsSpace(r[0])
    ensures forall i :: 0 <= i < |s| - |r| ==> IsSpace(s[i])
  {
    if |s| > 0 && IsSpace(s[0]) then StripLeft(s[1..]) else s
  }

  function StripRight(s: string): (r: string)
    ensures |r| <= |s| && r == s[..|r|]
    ensures |r| > 0 ==> !IsSpace(r[|r| - 1])
    ensures forall i :: |r| <= i < |s| ==> IsSpace(s[i])
  {
    if |s| > 0 && IsSpace(s[|s| - 1]) then StripRight(s[..|s| - 1]) else s
  }

  /** Python's `str.strip()` with no argument. */
  function Strip(s: string): string {
    StripRight(StripLeft(s))
  }

  /** `strip` removes exactly the surrounding whitespace: the result is a
      contiguous piece of the input, has no whitespace at either end, and
      everything cut off on either side is whitespace. */
  lemma StripSpec(s: string)
    ensures |s| - |StripLeft(s)| + |Strip(s)| <= |s|
    ensures s[|s| - |StripLeft(s)|..|s| - |StripLeft(s)| + |Strip(s)|] == Strip(s)
    ensures forall j :: 0 <= j < |s| - |StripLeft(s)| ==> IsSpace(s[j])
    ensures forall j :: |s| - |StripLeft(s)| + |Strip(s)| <= j < |s| ==> IsSpace(s[j])
    ensures |Strip(s)| > 0 ==> !IsSpace(Strip(s)[0]) && !IsSpace(Strip(s)[|Strip(s)| - 1])
  {
    StripMiddle(s);
    StripRightTail(StripLeft(s), s, |s| - |StripLeft(s)|);
    StripEnds(s);
  }

  lemma StripMiddle(s: string)
    ensures |s| - |StripLeft(s)| + |Strip(s)| <= |s|
    ensures s[|s| - |StripLeft(s)|..|s| - |StripLeft(s)| + |Strip(s)|] == Strip(s)
    ensures s[|s| - |StripLeft(s)|..] == StripLeft(s)
  {
    var l := StripLeft(s);
    var r := StripRight(l);
    SliceOfSuffix(s, l, r);
  }

  /** A prefix of a suffix is a slice. */
  lemma SliceOfSuffix<T>(s: seq<T>, l: seq<T>, r: seq<T>)
    requires |l| <= |s| && l == s[|s| - |l|..]
    requires |r| <= |l| && r == l[..|r|]
    ensures s[|s| - |l|..|s| - |l| + |r|] == r
  {
  }

  lemma StripEnds(s: string)
    ensures |Strip(s)| > 0 ==> !IsSpace(Strip(s)[0]) && !IsSpace(Strip(s)[|Strip(s)| - 1])
  {
    var l := StripLeft(s);
    var r := StripRight(l);
    if |r| > 0 {
      assert r[0] == l[0];
    }
  }

  lemma StripRightTail(l: string, s: string, i: nat)
    requires i + |l| == |s| && s[i..] == l
    ensures forall j :: i + |StripRight(l)| <= j < |s| ==> IsSpace(s[j])
  {
    var r := StripRight(l);
    forall j | i + |r| <= j < |s|
      ensures IsSpace(s[j])
    {
      assert s[j] == l[j - i];
    }
  }

  /** Left-stripping a concatenation strips into the second part only when
      the first is all whitespace. */
  lemma {:induction false} StripLeftConcat(f: string, t: string)
    ensures StripLeft(f + t) == if StripLeft(f) == "" then StripLeft(t) else StripLeft(f) + t
  {
    if |f| == 0 {
      assert f + t == t;
    } else if IsSpace(f[0]) {
      assert (f + t)[0] == f[0];
      assert (f + t)[1..] == f[1..] + t;
      StripLeftConcat(f[1..], t);
    } else {
      assert (f + t)[0] == f[0];
    }
  }

  /** Keep the elements satisfying `p`, in order. */
  function Filter<T>(s: seq<T>, p: T -> bool): (r: seq<T>)
    ensures |r| <= |s|
    ensures forall i :: 0 <= i < |r| ==> r[i] in s && p(r[i])
    ensures forall i :: 0 <= i < |s| && p(s[i]) ==> s[i] in r
  {
    if |s| == 0 then []
    else if p(s[0]) then [s[0]] + Filter(s[1..], p)
    else Filter(s[1..], p)
  }

  /** One element in front: kept exactly when it satisfies `p`, ahead of
      the filtered rest. */
  lemma FilterCons<T>(x: T, s: seq<T>, p: T -> bool)
    ensures Filter([x] + s, p) == (if p(x) then [x] else []) + Filter(s, p)
  {
    assert ([x] + s)[0] == x && ([x] + s)[1..] == s;
  }

  /** Filtering distributes over concatenation, so the kept elements stay
      in their input order. */
  lemma {:induction false} FilterAppend<T>(a: seq<T>, b: seq<T>, p: T -> bool)
    ensures Filter(a + b, p) == Filter(a, p) + Filter(b, p)
  {
    if |a| == 0 {
      assert a + b == b;
    } else {
      var x, t := a[0], a[1..];
      var head: seq<T> := if p(x) then [x] else [];
      calc {
        Filter(a + b, p);
      == { assert a + b == [x] + (t + b); }
        Filter([x] + (t + b), p);
      == { FilterCons(x, t + b, p); }
        head + Filter(t + b, p);
      == { FilterAppend(t, b, p); }
        head + (Filter(t, p) + Filter(b, p));
      == { assert head + (Filter(t, p) + Filter(b, p)) == (head + Filter(t, p)) + Filter(b, p); }
        (head + Filter(t, p)) + Filter(b, p);
      == { assert a == [x] + t; FilterCons(x, t, p); }
        Filter(a, p) + Filter(b, p);
      }
    }
  }
}
