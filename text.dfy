/**
 The JavaScript string operations the core relies on: `trim`, `toLowerCase`,
 `includes`, `Array.prototype.join` and the decimal rendering of integers
 inside template strings.
 */
module Text {

  /** The characters `String.prototype.trim` removes: JavaScript WhiteSpace and LineTerminator. */
  predicate IsJsSpace(c: char) {
    var n := c as int;
    (0x09 <= n <= 0x0D) || n == 0x20 || n == 0xA0 || n == 0x1680 ||
    (0x2000 <= n <= 0x200A) || n == 0x2028 || n == 0x2029 || n == 0x202F ||
    n == 0x205F || n == 0x3000 || n == 0xFEFF
  }

  /** Drops leading white space. */
  function TrimStart(s: string): (r: string)
    ensures |r| <= |s| && r == s[|s| - |r|..]
    ensures r == [] || !IsJsSpace(r[0])
    ensures forall i :: 0 <= i < |s| - |r| ==> IsJsSpace(s[i])
  {
    if |s| > 0 && IsJsSpace(s[0]) then TrimStart(s[1..]) else s
  }

  /** Drops trailing white space. */
  function TrimEnd(s: string): (r: string)
    ensures |r| <= |s| && r == s[..|r|]
    ensures r == [] || !IsJsSpace(r[|r| - 1])
    ensures forall i :: |r| <= i < |s| ==> IsJsSpace(s[i])
  {
    if |s| > 0 && IsJsSpace(s[|s| - 1]) then TrimEnd(s[..|s| - 1]) else s
  }

  /** `String.prototype.trim`. */
  function Trim(s: string): string {
    TrimEnd(TrimStart(s))
  }

  /** A string that starts and ends with a visible character is its own trim. */
  lemma {:induction false} TrimKeepsVisible(s: string)
    requires s != [] && !IsJsSpace(s[0]) && !IsJsSpace(s[|s| - 1])
    ensures Trim(s) == s
  {
    assert TrimStart(s) == s;
    assert TrimEnd(s) == s;
  }

  /** A string made only of white space trims to the empty string. */
  lemma {:induction false} TrimBlank(s: string)
    requires forall i :: 0 <= i < |s| ==> IsJsSpace(s[i])
    ensures Trim(s) == ""
  {
  }

  /** Nothing but white space (the empty string included). */
  predicate Blank(s: string) {
    forall i :: 0 <= i < |s| ==> IsJsSpace(s[i])
  }

  /** Non-empty, with a visible character at each end. */
  predicate Visible(s: string) {
    s != [] && !IsJsSpace(s[0]) && !IsJsSpace(s[|s| - 1])
  }

  /** `s` ends with `z`. */
  predicate EndsWith(s: string, z: string) {
    |z| <= |s| && s[|s| - |z|..] == z
  }

  /** Only a blank string trims to the empty string. */
  lemma TrimEmptyIsBlank(s: string)
    requires Trim(s) == ""
    ensures Blank(s)
  {
    assert TrimStart(s) == [];
  }

  /** A visible leading part survives `trim` whatever follows it. */
  lemma TrimKeepsPrefix(a: string, rest: string)
    requires Visible(a)
    ensures a <= Trim(a + rest)
  {
    var s := a + rest;
    assert s[0] == a[0];
    assert TrimStart(s) == s;
    var r := TrimEnd(s);
    assert s[|a| - 1] == a[|a| - 1];
    assert |r| >= |a|;
    assert r == s[..|r|];
  }

  /** A visible trailing part survives `trim` whatever precedes it. */
  lemma TrimKeepsSuffix(pre: string, z: string)
    requires Visible(z)
    ensures EndsWith(Trim(pre + z), z)
  {
    var s := pre + z;
    var x := TrimStart(s);
    assert s[|pre|] == z[0];
    assert |s| - |x| <= |pre|;
    assert x == s[|s| - |x|..];
    assert x[|x| - |z|..] == z;
    assert x[|x| - 1] == z[|z| - 1];
    assert TrimEnd(x) == x;
  }

  /** Two blank strings together are blank. */
  lemma BlankConcat(a: string, b: string)
    requires Blank(a) && Blank(b)
    ensures Blank(a + b)
  {
    forall i | 0 <= i < |a + b|
      ensures IsJsSpace((a + b)[i])
    {
      if i >= |a| {
        assert (a + b)[i] == b[i - |a|];
      }
    }
  }

  /** `trim` removes blank text on either side of a visible middle, and nothing of the middle. */
  lemma TrimAround(pre: string, z: string, post: string)
    requires Blank(pre) && Visible(z) && Blank(post)
    ensures Trim(pre + z + post) == z
  {
    var s := pre + z + post;
    var x := TrimStart(s);
    assert !IsJsSpace(s[|pre|]);
    assert forall i :: 0 <= i < |pre| ==> IsJsSpace(s[i]);
    assert x[0] == s[|s| - |x|];
    assert |s| - |x| == |pre|;
    assert x == z + post;
    var y := TrimEnd(x);
    assert !IsJsSpace(x[|z| - 1]);
    assert forall i :: |z| <= i < |x| ==> IsJsSpace(x[i]);
    assert y[|y| - 1] == x[|y| - 1];
    assert |y| == |z|;
    assert y == x[..|z|] == z;
  }

  /** `toLowerCase` on one character; only the ASCII letters are mapped. */
  function LowerChar(c: char): char {
    if 'A' <= c <= 'Z' then (c as int + 32) as char else c
  }

  function Lower(s: string): (r: string)
    ensures |r| == |s|
    ensures forall i :: 0 <= i < |s| ==> r[i] == LowerChar(s[i])
  {
    seq(|s|, i requires 0 <= i < |s| => LowerChar(s[i]))
  }

  /** `s.includes(t)`: t occurs in s at some position. */
  function Contains(s: string, t: string): bool
  {
    t <= s || (|s| > 0 && Contains(s[1..], t))
  }

  /** t occurs in s starting at index i. */
  predicate OccursAt(s: string, t: string, i: int) {
    0 <= i <= |s| - |t| && s[i..i + |t|] == t
  }

  /** `Contains` means what `includes` means: an occurrence at some index. */
  lemma {:induction false} ContainsAt(s: string, t: string)
    ensures Contains(s, t) <==> exists i :: OccursAt(s, t, i)
  {
    if t <= s {
      assert OccursAt(s, t, 0);
    } else if |s| > 0 {
      ContainsAt(s[1..], t);
      if Contains(s[1..], t) {
        var i :| OccursAt(s[1..], t, i);
        assert s[i + 1..i + 1 + |t|] == s[1..][i..i + |t|];
        assert OccursAt(s, t, i + 1);
      }
      if exists i :: OccursAt(s, t, i) {
        var i :| OccursAt(s, t, i);
        if i > 0 {
          assert s[1..][i - 1..i - 1 + |t|] == s[i..i + |t|];
          assert OccursAt(s[1..], t, i - 1);
        }
      }
    }
  }

  function DigitChar(n: nat): char
    requires n < 10
  {
    ('0' as int + n) as char
  }

  /** Decimal rendering of a natural number, as `${n}` prints it. */
  function NatToString(n: nat): (r: string)
  {
    if n < 10 then [DigitChar(n)] else NatToString(n / 10) + [DigitChar(n % 10)]
  }

  function IntToString(n: int): string {
    if n < 0 then "-" + NatToString(-n) else NatToString(n)
  }

  /** Left-pads a rendered number with zeros to `width` characters. */
  function PadZeros(s: string, width: nat): (r: string)
    decreases width - |s|
  {
    if |s| >= width then s else PadZeros("0" + s, width)
  }

  /** `lines.join(sep)`. */
  function Join(lines: seq<string>, sep: string): string
  {
    if |lines| == 0 then ""
    else if |lines| == 1 then lines[0]
    else lines[0] + sep + Join(lines[1..], sep)
  }

  /** Joining blank lines with a blank separator gives a blank string. */
  lemma {:induction false} JoinBlank(lines: seq<string>, sep: string)
    requires Blank(sep) && forall i :: 0 <= i < |lines| ==> Blank(lines[i])
    ensures Blank(Join(lines, sep))
  {
    if |lines| > 1 {
      JoinBlank(lines[1..], sep);
      var s := Join(lines, sep);
      var a, t := lines[0], Join(lines[1..], sep);
      assert s == a + sep + t;
      forall i | 0 <= i < |s|
        ensures IsJsSpace(s[i])
      {
        if i < |a| {
        } else if i < |a| + |sep| {
          assert s[i] == sep[i - |a|];
        } else {
          assert s[i] == t[i - |a| - |sep|];
        }
      }
    }
  }

  /** A line with a visible character makes the joined string non-blank. */
  lemma {:induction false} JoinNotBlank(lines: seq<string>, sep: string, k: nat)
    requires k < |lines| && !Blank(lines[k])
    ensures !Blank(Join(lines, sep))
  {
    if |lines| > 1 {
      var s := Join(lines, sep);
      var a, t := lines[0], Join(lines[1..], sep);
      assert s == a + sep + t;
      if k == 0 {
        var i :| 0 <= i < |a| && !IsJsSpace(a[i]);
        assert s[i] == a[i];
      } else {
        assert lines[1..][k - 1] == lines[k];
        JoinNotBlank(lines[1..], sep, k - 1);
        var i :| 0 <= i < |t| && !IsJsSpace(t[i]);
        assert s[|a| + |sep| + i] == t[i];
      }
    }
  }

  /** The joined string starts with the first line and ends with the last. */
  lemma {:induction false} JoinEnds(lines: seq<string>, sep: string)
    requires |lines| > 0
    ensures lines[0] <= Join(lines, sep)
    ensures EndsWith(Join(lines, sep), lines[|lines| - 1])
  {
    if |lines| > 1 {
      JoinEnds(lines[1..], sep);
      var a, t := lines[0], Join(lines[1..], sep);
      assert Join(lines, sep) == (a + sep) + t;
      assert lines[1..][|lines| - 2] == lines[|lines| - 1];
    }
  }
}
