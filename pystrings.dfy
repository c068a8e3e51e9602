/** The few Python string and path primitives the scripts rely on, written out
    so that their edge cases (empty fields, trailing newlines, absolute parts)
    are part of the model. */
module PyStrings {

  /** `s.split(sep)` for a one-character separator: never empty. */
  function Split(s: string, sep: char): (r: seq<string>)
    ensures |r| >= 1
  {
    if s == [] then [""]
    else
      var rest := Split(s[1..], sep);
      if s[0] == sep then [""] + rest
      else [[s[0]] + rest[0]] + rest[1..]
  }

  /** No field of a split holds the separator, and there are two or more
      fields exactly when the separator occurs. */
  lemma {:induction false} SplitFields(s: string, sep: char)
    ensures forall i :: 0 <= i < |Split(s, sep)| ==> sep !in Split(s, sep)[i]
    ensures |Split(s, sep)| >= 2 <==> sep in s
  {
    if s != [] {
      SplitFields(s[1..], sep);
      var rest := Split(s[1..], sep);
      var r := Split(s, sep);
      if s[0] == sep {
        assert r[1..] == rest;
        assert s[0] in s;
      } else {
        assert r[0] == [s[0]] + rest[0];
        assert r[1..] == rest[1..];
        assert sep in s <==> sep in s[1..] by {
          assert s == [s[0]] + s[1..];
        }
      }
    }
  }

  /** `sep.join(parts)`. */
  function Join(parts: seq<string>, sep: char): string
    requires |parts| >= 1
  {
    if |parts| == 1 then parts[0] else parts[0] + [sep] + Join(parts[1..], sep)
  }

  /** Joining one more part appends the separator and that part. */
  lemma {:induction false} JoinSnoc(parts: seq<string>, x: string, sep: char)
    requires |parts| >= 1
    ensures Join(parts + [x], sep) == Join(parts, sep) + [sep] + x
  {
    if |parts| > 1 {
      assert (parts + [x])[1..] == parts[1..] + [x];
      JoinSnoc(parts[1..], x, sep);
    }
  }

  /** `s.split(sep)[-1]`. */
  function LastField(s: string, sep: char): string
  {
    var fields := Split(s, sep);
    fields[|fields| - 1]
  }

  /** Growing the first part grows the joined string at its front. */
  lemma JoinPrepend(parts: seq<string>, c: char, sep: char)
    requires |parts| >= 1
    ensures Join([[c] + parts[0]] + parts[1..], sep) == [c] + Join(parts, sep)
  {
    var q := [[c] + parts[0]] + parts[1..];
    assert q[1..] == parts[1..];
  }

  /** Joining the fields of a split gives back the original string. */
  lemma {:induction false} JoinSplit(s: string, sep: char)
    ensures Join(Split(s, sep), sep) == s
  {
    if s != [] {
      JoinSplit(s[1..], sep);
      var rest := Split(s[1..], sep);
      if s[0] == sep {
        assert Split(s, sep)[1..] == rest;
      } else {
        JoinPrepend(rest, s[0], sep);
      }
      assert s == [s[0]] + s[1..];
    }
  }

  /** Splitting a string with one separator in it cuts exactly there. */
  lemma {:induction false} SplitAt(a: string, b: string, sep: char)
    requires sep !in a
    ensures Split(a + [sep] + b, sep) == [a] + Split(b, sep)
  {
    if a == [] {
      assert a + [sep] + b == [sep] + b;
      assert ([sep] + b)[1..] == b;
    } else {
      var s := a + [sep] + b;
      assert s[0] == a[0] && s[1..] == a[1..] + [sep] + b;
      SplitAt(a[1..], b, sep);
      assert [a[0]] + a[1..] == a;
    }
  }

  /** A string without the separator is one field. */
  lemma {:induction false} SplitNone(s: string, sep: char)
    requires sep !in s
    ensures Split(s, sep) == [s]
  {
    if s != [] {
      SplitNone(s[1..], sep);
      assert [s[0]] + s[1..] == s;
    }
  }

  /** Splitting joined fields that hold no separator gives the fields back. */
  lemma {:induction false} SplitJoin(parts: seq<string>, sep: char)
    requires |parts| >= 1
    requires forall i :: 0 <= i < |parts| ==> sep !in parts[i]
    ensures Split(Join(parts, sep), sep) == parts
  {
    if |parts| == 1 {
      SplitNone(parts[0], sep);
    } else {
      SplitJoin(parts[1..], sep);
      SplitAt(parts[0], Join(parts[1..], sep), sep);
      assert [parts[0]] + parts[1..] == parts;
    }
  }

  /** The first field is everything before the first separator. */
  lemma SplitFirst(a: string, b: string, sep: char)
    requires sep !in a
    ensures Split(a + [sep] + b, sep)[0] == a
    ensures LastField(a + [sep] + b, sep) == LastField(b, sep)
  {
    SplitAt(a, b, sep);
  }

  /** `s.startswith(p)`. */
  predicate StartsWith(s: string, p: string)
  {
    |p| <= |s| && s[..|p|] == p
  }

  /** `s.endswith(p)`. */
  predicate EndsWith(s: string, p: string)
  {
    |p| <= |s| && s[|s| - |p|..] == p
  }

  /** The characters `str.isspace()` accepts: the Latin-1 white space and
      separators, and the Unicode space separators, line and paragraph
      separators beyond it. */
  predicate IsSpace(c: char)
  {
    var n := c as int;
    c == ' ' || (9 <= n <= 13) || (0x1c <= n <= 0x1f) || n == 0x85 || n == 0xa0 ||
    n == 0x1680 || (0x2000 <= n <= 0x200a) || n == 0x2028 || n == 0x2029 ||
    n == 0x202f || n == 0x205f || n == 0x3000
  }

  /** `s.lstrip()`: drop leading white space. */
  function LStrip(s: string): (r: string)
    ensures |r| <= |s| && (r == [] || !IsSpace(r[0]))
  {
    if s != [] && IsSpace(s[0]) then LStrip(s[1..]) else s
  }

  /** What `lstrip` keeps is a suffix, and what it drops is white space. */
  lemma {:induction false} LStripSuffix(s: string)
    ensures var r := LStrip(s);
      r == s[|s| - |r|..] && forall j :: 0 <= j < |s| - |r| ==> IsSpace(s[j])
  {
    if s != [] && IsSpace(s[0]) {
      LStripSuffix(s[1..]);
      var r := LStrip(s);
      assert s[1..][|s| - 1 - |r|..] == s[|s| - |r|..];
      forall j | 0 <= j < |s| - |r| ensures IsSpace(s[j]) {
        if j > 0 {
          assert s[j] == s[1..][j - 1];
        }
      }
    }
  }

  /** Removes one final newline: what a `$` anchor may skip over. */
  function Chomp(s: string): string
  {
    if s != [] && s[|s| - 1] == '\n' then s[..|s| - 1] else s
  }

  /** `re.search("^_[^_].*$", s)`: an underscore, one character that is not an
      underscore (a newline included), then no line break, except that `$` may
      match just before a final newline. */
  predicate SingleUnderscorePrivate(s: string)
  {
    |s| >= 2 && s[0] == '_' && s[1] != '_' && '\n' !in Chomp(s[2..])
  }

  /** `re.search("(\.py)$", s)`: ".py" at the end, or just before a final newline. */
  predicate PythonSuffix(s: string)
  {
    EndsWith(s, ".py") || EndsWith(s, ".py\n")
  }

  /** POSIX `os.path.join(a, b)`: an absolute `b` replaces `a`. */
  function PathJoin(a: string, b: string): (r: string)
    ensures StartsWith(b, "/") ==> r == b
    ensures !StartsWith(b, "/") ==> EndsWith(r, b) && StartsWith(r, a)
  {
    if StartsWith(b, "/") then b
    else if a == [] || a[|a| - 1] == '/' then a + b
    else a + "/" + b
  }

  /** POSIX `os.path.join(*parts)`, folded from the left. */
  function PathJoinAll(parts: seq<string>): string
    requires |parts| >= 1
  {
    if |parts| == 1 then parts[0] else PathJoin(PathJoinAll(parts[..|parts| - 1]), parts[|parts| - 1])
  }

  /** `os.path.basename(p)`. */
  function BaseName(p: string): (r: string)
    ensures '/' !in r
  {
    SplitFields(p, '/');
    LastField(p, '/')
  }

  /** The last field is whatever follows the last separator. */
  lemma {:induction false} LastFieldAfter(x: string, b: string, sep: char)
    requires sep !in b
    ensures LastField(x + [sep] + b, sep) == b
  {
    SplitNone(b, sep);
    if x == [] {
      SplitAt(x, b, sep);
    } else {
      var s := x + [sep] + b;
      assert s[0] == x[0] && s[1..] == x[1..] + [sep] + b;
      LastFieldAfter(x[1..], b, sep);
      SplitFields(s[1..], sep);
      assert sep in s[1..] by {
        assert s[1..][|x| - 1] == sep;
      }
    }
  }

  /** The base name of a path joined with a plain name is that name. */
  lemma BaseNameJoin(a: string, b: string)
    requires '/' !in b
    ensures BaseName(PathJoin(a, b)) == b
  {
    SplitNone(b, '/');
    if a != [] && a[|a| - 1] == '/' {
      assert a + b == a[..|a| - 1] + ['/'] + b;
      LastFieldAfter(a[..|a| - 1], b, '/');
    } else if a != [] {
      LastFieldAfter(a, b, '/');
    }
  }

  /** Whatever precedes a separator does not reach the last field. */
  lemma {:induction false} LastFieldThrough(x: string, b: string, sep: char)
    ensures LastField(x + [sep] + b, sep) == LastField(b, sep)
  {
    if x == [] {
      SplitAt(x, b, sep);
    } else {
      var s := x + [sep] + b;
      assert s[0] == x[0] && s[1..] == x[1..] + [sep] + b;
      LastFieldThrough(x[1..], b, sep);
      SplitFields(s[1..], sep);
      assert sep in s[1..] by {
        assert s[1..][|x| - 1] == sep;
      }
    }
  }

  /** A string that does not end in the separator has a non-empty last
      field. */
  lemma {:induction false} LastFieldNonEmpty(s: string, sep: char)
    requires s != [] && s[|s| - 1] != sep
    ensures LastField(s, sep) != []
  {
    var rest := Split(s[1..], sep);
    var r := Split(s, sep);
    if |s| > 1 {
      assert s[1..][|s[1..]| - 1] == s[|s| - 1];
      LastFieldNonEmpty(s[1..], sep);
      if s[0] == sep || |rest| > 1 {
        assert r[|r| - 1] == rest[|rest| - 1];
      }
    } else {
      assert s[1..] == [] && rest == [""];
      assert r == [[s[0]] + ""];
    }
  }

  /** `basename(join(a, b))` is `basename(b)`, whatever `a` and `b` are. */
  lemma BaseNameJoinAny(a: string, b: string)
    ensures BaseName(PathJoin(a, b)) == BaseName(b)
  {
    if !StartsWith(b, "/") && a != [] {
      if a[|a| - 1] == '/' {
        assert a + b == a[..|a| - 1] + ['/'] + b;
        LastFieldThrough(a[..|a| - 1], b, '/');
      } else {
        LastFieldThrough(a, b, '/');
      }
    }
  }

  /** A path that does not end in '/' has a non-empty base name. */
  lemma BaseNameNonEmpty(p: string)
    requires p != [] && p[|p| - 1] != '/'
    ensures BaseName(p) != []
  {
    LastFieldNonEmpty(p, '/');
  }

  /** Just past the last '/' of `p`, 0 when there is none:
      `p.rfind('/') + 1`. */
  function LastSlashEnd(p: string): (i: nat)
    ensures i <= |p| && '/' !in p[i..] && (i > 0 ==> p[i - 1] == '/')
  {
    if p == [] then 0
    else if p[|p| - 1] == '/' then |p|
    else
      var i := LastSlashEnd(p[..|p| - 1]);
      assert p[i..] == p[..|p| - 1][i..] + [p[|p| - 1]];
      i
  }

  /** `s.rstrip('/')`. */
  function RStripSlashes(s: string): (r: string)
    ensures |r| <= |s| && r == s[..|r|]
    ensures r == [] || r[|r| - 1] != '/'
    ensures forall i :: |r| <= i < |s| ==> s[i] == '/'
  {
    if s != [] && s[|s| - 1] == '/' then RStripSlashes(s[..|s| - 1]) else s
  }

  /** POSIX `os.path.dirname(p)`: everything before the last '/', with
      trailing slashes removed unless that leaves nothing. */
  function DirName(p: string): (r: string)
    ensures |r| <= |p| && r == p[..|r|]
    ensures '/' !in p ==> r == ""
  {
    var head := p[..LastSlashEnd(p)];
    var stripped := RStripSlashes(head);
    if stripped == [] then head else stripped
  }

  /** The directory of a name joined to a directory is that directory. */
  lemma DirNameJoin(a: string, b: string)
    requires '/' !in b && a != [] && a[|a| - 1] != '/'
    ensures DirName(PathJoin(a, b)) == a
  {
    var p := a + "/" + b;
    assert !StartsWith(b, "/") by {
      if |b| >= 1 {
        assert b[0] in b;
      }
    }
    assert PathJoin(a, b) == p;
    assert p[..|a| + 1] == a + "/";
    assert p[|a| + 1..] == b;
    LastSlashEndAt(a + "/", b);
    assert (a + "/")[..|a|] == a;
  }

  /** Joining `b/c` to a directory is joining `b`, then `c`. */
  lemma PathJoinThrough(a: string, b: string, c: string)
    requires b != [] && b[0] != '/' && b[|b| - 1] != '/' && !StartsWith(c, "/")
    ensures PathJoin(a, b + "/" + c) == PathJoin(PathJoin(a, b), c)
  {
    var bc := b + "/" + c;
    assert !StartsWith(bc, "/") by {
      assert bc[0] == b[0];
    }
    var ab := if a == [] || a[|a| - 1] == '/' then a + b else a + "/" + b;
    assert PathJoin(a, b) == ab by {
      assert !StartsWith(b, "/");
    }
    assert PathJoin(ab, c) == ab + "/" + c by {
      assert ab[|ab| - 1] == b[|b| - 1];
    }
    assert PathJoin(a, bc) == ab + "/" + c by {
      if a == [] || a[|a| - 1] == '/' {
        assert a + bc == ab + "/" + c;
      } else {
        assert a + "/" + bc == ab + "/" + c;
      }
    }
  }

  /** Nothing after a final run of non-slashes moves the last slash. */
  lemma {:induction false} LastSlashEndAt(x: string, b: string)
    requires x != [] && x[|x| - 1] == '/' && '/' !in b
    ensures LastSlashEnd(x + b) == |x|
  {
    if b != [] {
      var y := x + b;
      assert y[..|y| - 1] == x + b[..|b| - 1];
      LastSlashEndAt(x, b[..|b| - 1]);
    }
  }

  /** `str(n)` for a natural number. */
  function DecimalString(n: nat): (r: string)
    ensures |r| >= 1
    ensures forall i :: 0 <= i < |r| ==> '0' <= r[i] <= '9'
  {
    var d := [(('0' as int) + n % 10) as char];
    if n < 10 then d else DecimalString(n / 10) + d
  }

  /** The number a string of decimal digits denotes, read in base 10. */
  function DigitsValue(s: string): int
  {
    if s == [] then 0 else DigitsValue(s[..|s| - 1]) * 10 + (s[|s| - 1] as int - '0' as int)
  }

  /** `str(n)` reads back as `n`, and it has a leading zero only for 0. */
  lemma {:induction false} DecimalStringValue(n: nat)
    ensures DigitsValue(DecimalString(n)) == n
    ensures DecimalString(n)[0] == '0' <==> n == 0
  {
    var d := [(('0' as int) + n % 10) as char];
    if n >= 10 {
      DecimalStringValue(n / 10);
      var r := DecimalString(n / 10) + d;
      assert r[..|r| - 1] == DecimalString(n / 10);
      assert r[0] == DecimalString(n / 10)[0];
    }
  }

  /** `s.index(c)`: where `c` first occurs. */
  function FirstIndex(s: string, c: char): (p: nat)
    requires c in s
    ensures p < |s| && s[p] == c && c !in s[..p]
  {
    if s[0] == c then 0
    else
      var p := FirstIndex(s[1..], c) + 1;
      assert s[..p] == [s[0]] + s[1..][..p - 1];
      p
  }

  /** The first field of a split runs up to the first separator. */
  lemma SplitHead(t: string, c: char)
    ensures c in t ==> Split(t, c)[0] == t[..FirstIndex(t, c)] && Split(t, c)[1..] == Split(t[FirstIndex(t, c) + 1..], c)
    ensures c !in t ==> Split(t, c) == [t]
  {
    if c in t {
      var q := FirstIndex(t, c);
      assert t == t[..q] + [c] + t[q + 1..];
      SplitAt(t[..q], t[q + 1..], c);
      var parts := Split(t, c);
      assert parts == [t[..q]] + Split(t[q + 1..], c);
      assert parts[1..] == Split(t[q + 1..], c);
    } else {
      SplitNone(t, c);
    }
  }

  /** The text between the first and the second `c` of a line, or up to its end.
      It is `s.split(c)[1]` (an IndexError when `c` does not occur), as
      `SecondFieldSplit` shows. */
  function SecondField(s: string, c: char): (r: string)
    requires c in s
    ensures c !in r
    ensures var p := FirstIndex(s, c); var e := p + 1 + |r|;
      e <= |s| && r == s[p + 1..e] && (e == |s| || s[e] == c)
  {
    var p := FirstIndex(s, c);
    var t := s[p + 1..];
    if c in t then
      var q := FirstIndex(t, c);
      assert t[..q] == s[p + 1..p + 1 + q] && s[p + 1 + q] == t[q];
      t[..q]
    else
      assert t == s[p + 1..|s|];
      t
  }

  /** The field between the first two separators is the second field of the
      split. */
  lemma SecondFieldSplit(s: string, c: char)
    requires c in s
    ensures |Split(s, c)| >= 2 && SecondField(s, c) == Split(s, c)[1]
  {
    var t := s[FirstIndex(s, c) + 1..];
    SplitFields(s, c);
    SplitHead(s, c);
    assert Split(s, c)[1] == Split(t, c)[0];
    SplitHead(t, c);
  }
}
