/**
 * The few Python string operations the plugins rely on: `str.strip()`,
 * `str.split(sep)` with a one-character separator, `str.upper()`,
 * `sep.join(parts)` and `str.rfind(c)`.
 */
module Text {

  /** Python's `str.isspace()` for one character: the characters `strip()` removes. */
  predicate IsSpace(c: char)
  {
    || c == ' '
    || ('\t' <= c <= '\r')
    || ('\U{1C}' <= c <= '\U{1F}')
    || c == '\U{85}' || c == '\U{A0}' || c == '\U{1680}'
    || ('\U{2000}' <= c <= '\U{200A}')
    || c == '\U{2028}' || c == '\U{2029}' || c == '\U{202F}' || c == '\U{205F}' || c == '\U{3000}'
  }

  /** Drops leading white space. */
  function TrimLeft(s: string): (r: string)
    ensures |r| <= |s| && r == s[|s| - |r|..]
    ensures r == [] || !IsSpace(r[0])
    ensures forall i :: 0 <= i < |s| - |r| ==> IsSpace(s[i])
    decreases |s|
  {
    if |s| > 0 && IsSpace(s[0]) then TrimLeft(s[1..]) else s
  }

  /** Drops trailing white space. */
  function TrimRight(s: string): (r: string)
    ensures |r| <= |s| && r == s[..|r|]
    ensures r == [] || !IsSpace(r[|r| - 1])
    ensures forall i :: |r| <= i < |s| ==> IsSpace(s[i])
    decreases |s|
  {
    if |s| > 0 && IsSpace(s[|s| - 1]) then TrimRight(s[..|s| - 1]) else s
  }

  /** `s.strip()`: neither end of the result is white space. */
  function Strip(s: string): (r: string)
    ensures r == [] || (!IsSpace(r[0]) && !IsSpace(r[|r| - 1]))
  {
    TrimRight(TrimLeft(s))
  }

  /** Only white space is stripped: every other character keeps its count. */
  lemma StripKeeps(s: string)
    ensures forall c :: !IsSpace(c) ==> multiset(Strip(s))[c] == multiset(s)[c]
  {
    TrimLeftKeeps(s);
    TrimRightKeeps(TrimLeft(s));
  }

  lemma TrimLeftKeeps(s: string)
    ensures forall c :: !IsSpace(c) ==> multiset(TrimLeft(s))[c] == multiset(s)[c]
  {
    var l := TrimLeft(s);
    assert s == s[..|s| - |l|] + l;
    SpacesOnly(s[..|s| - |l|]);
  }

  lemma TrimRightKeeps(s: string)
    ensures forall c :: !IsSpace(c) ==> multiset(TrimRight(s))[c] == multiset(s)[c]
  {
    var r := TrimRight(s);
    assert s == r + s[|r|..];
    SpacesOnly(s[|r|..]);
  }

  /** A string made of white space holds no other character. */
  lemma SpacesOnly(t: string)
    requires forall i :: 0 <= i < |t| ==> IsSpace(t[i])
    ensures forall c :: !IsSpace(c) ==> multiset(t)[c] == 0
  {
    forall c | !IsSpace(c) ensures multiset(t)[c] == 0 {
      assert c !in t;
    }
  }

  /** `c.upper()` for ASCII letters. */
  function UpperChar(c: char): char
  {
    if 'a' <= c <= 'z' then (c as int - 'a' as int + 'A' as int) as char else c
  }

  /** `s.upper()`, character by character. */
  function Upper(s: string): (r: string)
    ensures |r| == |s|
  {
    seq(|s|, i requires 0 <= i < |s| => UpperChar(s[i]))
  }

  /** `sep.join(parts)`. */
  function Join(parts: seq<string>, sep: string): string
  {
    if |parts| == 0 then ""
    else if |parts| == 1 then parts[0]
    else parts[0] + sep + Join(parts[1..], sep)
  }

  /** `s.split(sep)`: the pieces between separators, always at least one. */
  function Split(s: string, sep: char): (r: seq<string>)
    ensures |r| >= 1
    decreases |s|
  {
    if s == [] then [""]
    else
      var rest := Split(s[1..], sep);
      if s[0] == sep then [""] + rest else [[s[0]] + rest[0]] + rest[1..]
  }

  /** `s.rfind(c)`: the last index of `c`, or -1 when there is none. */
  function RFind(s: string, c: char): (r: int)
    ensures -1 <= r < |s|
    ensures r >= 0 ==> s[r] == c
    ensures forall j :: r < j < |s| ==> s[j] != c
    decreases |s|
  {
    if s == [] then -1
    else if s[|s| - 1] == c then |s| - 1
    else RFind(s[..|s| - 1], c)
  }

  lemma {:induction false} JoinConcat(a: seq<string>, b: seq<string>, sep: string)
    requires a != [] && b != []
    ensures Join(a + b, sep) == Join(a, sep) + sep + Join(b, sep)
    decreases |a|
  {
    if |a| == 1 {
      assert (a + b)[1..] == b;
    } else {
      assert (a + b)[1..] == a[1..] + b;
      JoinConcat(a[1..], b, sep);
    }
  }

  /** Splitting a string that is one character longer. */
  lemma SplitCons(c: char, s: string, sep: char)
    ensures var r := Split(s, sep);
      Split([c] + s, sep) == if c == sep then [""] + r else [[c] + r[0]] + r[1..]
  {
    assert ([c] + s)[1..] == s;
  }

  /** There is one more piece than there are separators. */
  lemma {:induction false} SplitCount(s: string, sep: char)
    ensures |Split(s, sep)| == multiset(s)[sep] + 1
    decreases |s|
  {
    if s != [] {
      assert s == [s[0]] + s[1..];
      assert multiset(s) == multiset([s[0]]) + multiset(s[1..]);
      SplitCons(s[0], s[1..], sep);
      SplitCount(s[1..], sep);
    }
  }

  lemma JoinCons(x: string, t: seq<string>, sep: string)
    ensures Join([x] + t, sep) == if t == [] then x else x + sep + Join(t, sep)
  {
    assert ([x] + t)[1..] == t;
  }

  /** Joining the pieces back with the separator gives the string that was split. */
  lemma {:induction false} JoinSplit(s: string, sep: char)
    ensures Join(Split(s, sep), [sep]) == s
    decreases |s|
  {
    if s != [] {
      var u := s[1..];
      assert s == [s[0]] + u;
      SplitCons(s[0], u, sep);
      JoinSplit(u, sep);
      var r := Split(u, sep);
      if s[0] == sep {
        JoinCons("", r, [sep]);
      } else {
        assert r == [r[0]] + r[1..];
        JoinHead(s[0], r[0], r[1..], [sep]);
      }
    }
  }

  /** A character put in front of the first piece ends up in front of the joined text. */
  lemma JoinHead(c: char, x: string, t: seq<string>, sep: string)
    ensures Join([[c] + x] + t, sep) == [c] + Join([x] + t, sep)
  {
    JoinCons([c] + x, t, sep);
    JoinCons(x, t, sep);
  }

  /** Splitting a string that starts with a separator-free piece `a`. */
  lemma {:induction false} SplitPrefix(a: string, t: string, sep: char)
    requires sep !in a
    ensures Split(a + t, sep) == [a + Split(t, sep)[0]] + Split(t, sep)[1..]
    decreases |a|
  {
    var r := Split(t, sep);
    if a == [] {
      assert a + t == t;
      assert a + r[0] == r[0];
      assert [a + r[0]] + r[1..] == r;
    } else {
      var u := a[1..] + t;
      var q := Split(u, sep);
      assert a[0] != sep by {
        assert a[0] in a;
      }
      calc {
        Split(a + t, sep);
        { assert a + t == [a[0]] + u; }
        Split([a[0]] + u, sep);
        { SplitCons(a[0], u, sep); }
        [[a[0]] + q[0]] + q[1..];
        { SplitPrefix(a[1..], t, sep); }
        [[a[0]] + (a[1..] + r[0])] + r[1..];
        { assert [a[0]] + (a[1..] + r[0]) == a + r[0]; }
        [a + r[0]] + r[1..];
      }
    }
  }

  /** Splitting undoes joining, when no part holds the separator. */
  lemma {:induction false} SplitJoin(parts: seq<string>, sep: char)
    requires parts != []
    requires forall i :: 0 <= i < |parts| ==> sep !in parts[i]
    ensures Split(Join(parts, [sep]), sep) == parts
    decreases |parts|
  {
    var p0 := parts[0];
    if |parts| == 1 {
      SplitPrefix(p0, "", sep);
      assert p0 + "" == p0;
      assert Split("", sep) == [""];
      assert Split(Join(parts, [sep]), sep) == [p0];
    } else {
      var rest := Join(parts[1..], [sep]);
      assert Join(parts, [sep]) == p0 + ([sep] + rest);
      SplitPrefix(p0, [sep] + rest, sep);
      SplitCons(sep, rest, sep);
      SplitJoin(parts[1..], sep);
      assert Split([sep] + rest, sep) == [""] + parts[1..];
      assert p0 + "" == p0;
      assert parts == [p0] + parts[1..];
    }
  }

  /** Upper-casing leaves white space, and what is white space, alone. */
  lemma UpperCharSpace(c: char)
    ensures IsSpace(UpperChar(c)) == IsSpace(c)
    ensures !IsSpace(c) ==> !IsSpace(UpperChar(c))
  {
  }

  lemma {:induction false} UpperIdempotent(s: string)
    ensures Upper(Upper(s)) == Upper(s)
  {
  }

  lemma UpperSlice(s: string, i: int)
    requires 0 <= i <= |s|
    ensures Upper(s[i..]) == Upper(s)[i..]
    ensures Upper(s[..i]) == Upper(s)[..i]
  {
  }

  lemma {:induction false} TrimLeftUpper(s: string)
    ensures TrimLeft(Upper(s)) == Upper(TrimLeft(s))
    decreases |s|
  {
    var u := Upper(s);
    if |s| > 0 {
      assert u[0] == UpperChar(s[0]);
      UpperCharSpace(s[0]);
      if IsSpace(s[0]) {
        UpperSlice(s, 1);
        TrimLeftUpper(s[1..]);
        calc {
          TrimLeft(u);
          TrimLeft(u[1..]);
          TrimLeft(Upper(s[1..]));
          Upper(TrimLeft(s[1..]));
          Upper(TrimLeft(s));
        }
      } else {
        assert TrimLeft(u) == u;
        assert TrimLeft(s) == s;
      }
    } else {
      assert u == [];
    }
  }

  lemma {:induction false} TrimRightUpper(s: string)
    ensures TrimRight(Upper(s)) == Upper(TrimRight(s))
    decreases |s|
  {
    var u := Upper(s);
    if |s| > 0 {
      var n := |s| - 1;
      assert u[n] == UpperChar(s[n]);
      UpperCharSpace(s[n]);
      if IsSpace(s[n]) {
        UpperSlice(s, n);
        TrimRightUpper(s[..n]);
        calc {
          TrimRight(u);
          TrimRight(u[..n]);
          TrimRight(Upper(s[..n]));
          Upper(TrimRight(s[..n]));
          Upper(TrimRight(s));
        }
      } else {
        assert TrimRight(u) == u;
        assert TrimRight(s) == s;
      }
    } else {
      assert u == [];
    }
  }

  /** Stripping and upper-casing commute. */
  lemma StripUpper(s: string)
    ensures Strip(Upper(s)) == Upper(Strip(s))
  {
    TrimLeftUpper(s);
    TrimRightUpper(TrimLeft(s));
  }

  /** Upper-casing commutes with splitting on a separator that is not a lower-case letter. */
  lemma {:induction false} SplitUpper(s: string, sep: char)
    requires !('a' <= sep <= 'z') && !('A' <= sep <= 'Z')
    ensures var r := Split(s, sep);
      Split(Upper(s), sep) == seq(|r|, i requires 0 <= i < |r| => Upper(r[i]))
    decreases |s|
  {
    if s != [] {
      var u := Upper(s);
      UpperSlice(s, 1);
      assert u[1..] == Upper(s[1..]);
      SplitUpper(s[1..], sep);
      assert u[0] == sep <==> s[0] == sep;
      var rest := Split(s[1..], sep);
      if s[0] != sep {
        assert Upper([s[0]] + rest[0]) == [u[0]] + Upper(rest[0]);
      }
    }
  }
}
