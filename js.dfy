/** JavaScript value semantics the catalogue code relies on: optional values, JSON scalars,
    truthiness, and the two string operations it uses (`split` and `includes`). */
module Js {

  datatype Option<+T> = None | Some(value: T)

  /** A thrown exception (in practice a TypeError on `undefined`) or a normal completion. */
  datatype Outcome<+T> = Done(value: T) | Crash

  /** A JSON scalar as it occurs in the snapshot. JavaScript numbers are modelled as integers. */
  datatype Value = Null | Num(n: int) | Str(s: string)

  /** JavaScript truthiness of a scalar: `null`, `0` and `""` are the falsy ones. */
  predicate Truthy(v: Value) {
    match v
    case Null => false
    case Num(n) => n != 0
    case Str(s) => s != ""
  }

  /** The scalar for a `number | null` field. */
  function OfNum(o: Option<int>): (v: Value)
    ensures v.Null? <==> o.None?
    ensures o.Some? ==> v == Num(o.value)
  {
    match o
    case None => Null
    case Some(n) => Num(n)
  }

  /** The scalar for a `string | null` field. */
  function OfStr(o: Option<string>): (v: Value)
    ensures v.Null? <==> o.None?
    ensures o.Some? ==> v == Str(o.value)
  {
    match o
    case None => Null
    case Some(s) => Str(s)
  }

  /** `s.split(sep)` for a one-character separator. */
  function Split(s: string, sep: char): (r: seq<string>)
    ensures |r| >= 1
    decreases |s|
  {
    if |s| == 0 then [""]
    else
      var rest := Split(s[1..], sep);
      if s[0] == sep then [""] + rest
      else [[s[0]] + rest[0]] + rest[1..]
  }

  /** `s.includes(t)`: some window of `s` equals `t`. */
  predicate Includes(s: string, t: string)
    decreases |s|
  {
    if |s| < |t| then false
    else if s[..|t|] == t then true
    else Includes(s[1..], t)
  }

  lemma {:induction false} SplitLeadingToken(a: string, rest: string, sep: char)
    requires sep !in a
    ensures Split(a + [sep] + rest, sep) == [a] + Split(rest, sep)
    decreases |a|
  {
    if |a| == 0 {
      assert a + [sep] + rest == [sep] + rest;
      assert ([sep] + rest)[1..] == rest;
    } else {
      assert (a + [sep] + rest)[1..] == a[1..] + [sep] + rest;
      SplitLeadingToken(a[1..], rest, sep);
      assert (a + [sep] + rest)[0] == a[0];
      assert [a[0]] + a[1..] == a;
    }
  }

  lemma {:induction false} SplitNoSeparator(a: string, sep: char)
    requires sep !in a
    ensures Split(a, sep) == [a]
    decreases |a|
  {
    if |a| > 0 {
      SplitNoSeparator(a[1..], sep);
      assert [a[0]] + a[1..] == a;
    }
  }

  /** A name made of three separator-free tokens splits back into exactly those tokens. */
  lemma SplitThree(a: string, b: string, c: string, sep: char)
    requires sep !in a && sep !in b && sep !in c
    ensures Split(a + [sep] + b + [sep] + c, sep) == [a, b, c]
  {
    assert a + [sep] + b + [sep] + c == a + [sep] + (b + [sep] + c);
    SplitLeadingToken(a, b + [sep] + c, sep);
    SplitLeadingToken(b, c, sep);
    SplitNoSeparator(c, sep);
  }

  /** A window that matches is found by `includes`. */
  lemma {:induction false} IncludesWindow(s: string, t: string, i: nat)
    requires i + |t| <= |s| && s[i..i + |t|] == t
    ensures Includes(s, t)
    decreases i
  {
    if s[..|t|] != t {
      assert i > 0;
      assert s[1..][i - 1..i - 1 + |t|] == s[i..i + |t|];
      IncludesWindow(s[1..], t, i - 1);
    }
  }

  /** Whatever `includes` finds consists of characters of `s`. */
  lemma {:induction false} IncludesChar(s: string, t: string, c: char)
    requires Includes(s, t) && c in t
    ensures c in s
    decreases |s|
  {
    if s[..|t|] == t {
      var j :| 0 <= j < |t| && t[j] == c;
      assert s[j] == c;
    } else {
      IncludesChar(s[1..], t, c);
      var j :| 0 <= j < |s[1..]| && s[1..][j] == c;
      assert s[j + 1] == c;
    }
  }

  /** `includes` fails when `t` has a character that `s` lacks. */
  lemma MissingCharExcludes(s: string, t: string, c: char)
    requires c in t && c !in s
    ensures !Includes(s, t)
  {
    if Includes(s, t) {
      IncludesChar(s, t, c);
    }
  }

  /** A string includes each of its suffixes. */
  lemma IncludesSuffix(a: string, t: string)
    ensures Includes(a + t, t)
  {
    assert (a + t)[|a|..|a| + |t|] == t;
    IncludesWindow(a + t, t, |a|);
  }
}
