/**
 * The JavaScript string operations the front end relies on:
 * `String.prototype.split` on a one-character separator,
 * `Array.prototype.join` and `String.prototype.trim`.
 */
module Text {

  /** JavaScript white space and line terminators, the characters `trim` removes. */
  predicate IsSpace(c: char) {
    || c == ' ' || c == '\t' || c == '\n' || c == '\r'
    || c == '\U{000B}' || c == '\U{000C}' || c == '\U{00A0}' || c == '\U{1680}'
    || ('\U{2000}' <= c <= '\U{200A}')
    || c == '\U{2028}' || c == '\U{2029}' || c == '\U{202F}' || c == '\U{205F}'
    || c == '\U{3000}' || c == '\U{FEFF}'
  }

  /** `s.split(sep)`: the pieces between occurrences of `sep`; never empty, even for "". */
  function Split(s: string, sep: char): (r: seq<string>)
    ensures |r| >= 1
    ensures forall i :: 0 <= i < |r| ==> sep !in r[i]
    decreases |s|
  {
    if |s| == 0 then [""]
    else if s[0] == sep then [""] + Split(s[1..], sep)
    else
      var rest := Split(s[1..], sep);
      [[s[0]] + rest[0]] + rest[1..]
  }

  /** `xs.join(sep)`. */
  function Join(xs: seq<string>, sep: string): string
    decreases |xs|
  {
    if |xs| == 0 then ""
    else if |xs| == 1 then xs[0]
    else xs[0] + sep + Join(xs[1..], sep)
  }

  /** Joining the pieces of a split with the separator gives back the original string. */
  lemma {:induction false} JoinSplit(s: string, sep: char)
    ensures Join(Split(s, sep), [sep]) == s
    decreases |s|
  {
    if |s| == 0 {
    } else {
      var rest := Split(s[1..], sep);
      JoinSplit(s[1..], sep);
      if s[0] == sep {
        assert Split(s, sep) == [""] + rest;
        assert ([""] + rest)[1..] == rest;
        assert s == [sep] + s[1..];
      } else {
        var r := [[s[0]] + rest[0]] + rest[1..];
        assert Split(s, sep) == r;
        assert r[1..] == rest[1..];
        if |rest| == 1 {
          assert s == [s[0]] + s[1..];
        } else {
          assert Join(rest, [sep]) == rest[0] + [sep] + Join(rest[1..], [sep]);
          assert s == [s[0]] + s[1..];
        }
      }
    }
  }

  /** A string without the separator is a single piece. */
  lemma {:induction false} SplitWithoutSeparator(a: string, sep: char)
    requires sep !in a
    ensures Split(a, sep) == [a]
    decreases |a|
  {
    if |a| > 0 {
      SplitWithoutSeparator(a[1..], sep);
      assert [a[0]] + a[1..] == a;
    }
  }

  /** Splitting `a + sep + b` yields `a` followed by the pieces of `b`. */
  lemma {:induction false} SplitAtFirstSeparator(a: string, b: string, sep: char)
    requires sep !in a
    ensures Split(a + [sep] + b, sep) == [a] + Split(b, sep)
    decreases |a|
  {
    var s := a + [sep] + b;
    if |a| == 0 {
      assert s == [sep] + b;
      assert s[1..] == b;
    } else {
      assert s[1..] == a[1..] + [sep] + b;
      SplitAtFirstSeparator(a[1..], b, sep);
      assert [a[0]] + a[1..] == a;
    }
  }

  /** Splitting a join of separator-free pieces recovers the pieces. */
  lemma {:induction false} SplitJoin(ps: seq<string>, sep: char)
    requires |ps| >= 1
    requires forall i :: 0 <= i < |ps| ==> sep !in ps[i]
    ensures Split(Join(ps, [sep]), sep) == ps
    decreases |ps|
  {
    if |ps| == 1 {
      SplitWithoutSeparator(ps[0], sep);
    } else {
      SplitJoin(ps[1..], sep);
      SplitAtFirstSeparator(ps[0], Join(ps[1..], [sep]), sep);
      assert [ps[0]] + ps[1..] == ps;
    }
  }

  /** The index of the first character at or after `i` that is not white space, or `|s|`. */
  function SkipLeading(s: string, i: nat): (k: nat)
    requires i <= |s|
    ensures i <= k <= |s|
    ensures forall j :: i <= j < k ==> IsSpace(s[j])
    ensures k == |s| || !IsSpace(s[k])
    decreases |s| - i
  {
    if i < |s| && IsSpace(s[i]) then SkipLeading(s, i + 1) else i
  }

  /**
   * Scanning back from `j`, not below `lo`: the index just after the last
   * character that is not white space, or `lo`.
   */
  function SkipTrailing(s: string, lo: nat, j: nat): (k: nat)
    requires lo <= j <= |s|
    ensures lo <= k <= j
    ensures forall m :: k <= m < j ==> IsSpace(s[m])
    ensures k == lo || !IsSpace(s[k - 1])
    decreases j - lo
  {
    if lo < j && IsSpace(s[j - 1]) then SkipTrailing(s, lo, j - 1) else j
  }

  /** True when `s` has no white space at either end. */
  predicate IsTrimmed(s: string) {
    s == [] || (!IsSpace(s[0]) && !IsSpace(s[|s| - 1]))
  }

  /** `s.trim()`: the white space at both ends removed. */
  function Trim(s: string): (r: string)
    ensures IsTrimmed(r)
    ensures |r| <= |s|
  {
    var a := SkipLeading(s, 0);
    s[a..SkipTrailing(s, a, |s|)]
  }

  /**
   * What `trim` keeps is one infix of `s`: every character of it comes from
   * `s`, and every character of `s` that is not white space is kept.
   */
  lemma TrimInfix(s: string)
    ensures forall c :: c in Trim(s) ==> c in s
    ensures forall c :: c in s && !IsSpace(c) ==> c in Trim(s)
  {
    var a := SkipLeading(s, 0);
    var b := SkipTrailing(s, a, |s|);
    var r := Trim(s);
    assert r == s[a..b];
    forall c | c in r ensures c in s {
      var k :| 0 <= k < |r| && r[k] == c;
      assert s[a + k] == c;
    }
    forall c | c in s && !IsSpace(c) ensures c in r {
      var k :| 0 <= k < |s| && s[k] == c;
      assert a <= k < b;
      assert r[k - a] == c;
    }
  }

  /** Trimming a string that has no white space at its ends changes nothing. */
  lemma TrimTrimmed(s: string)
    requires IsTrimmed(s)
    ensures Trim(s) == s
  {
    assert SkipLeading(s, 0) == 0;
    assert SkipTrailing(s, 0, |s|) == |s|;
  }

  /** A single leading blank in front of a trimmed, non-empty string is removed by `trim`. */
  lemma TrimLeadingBlank(x: string)
    requires x != [] && IsTrimmed(x)
    ensures Trim(" " + x) == x
  {
    var s := " " + x;
    assert s[1] == x[0];
    assert SkipLeading(s, 1) == 1;
    assert SkipLeading(s, 0) == 1;
    assert SkipTrailing(s, 1, |s|) == |s|;
    assert s[1..|s|] == x;
  }
}
