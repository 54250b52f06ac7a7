/**
 * The top bar: the avatar initials computed from the user's name and the
 * breadcrumb trail, where every crumb after the first is preceded by a
 * chevron and the last crumb is the active one.
 */
module Topbar {
  import opened Wrappers
  import opened Text

  /** The name shown when no user name is given. */
  const DEFAULT_NAME: string := "Alex Rivera"

  /** `user?.name || 'Alex Rivera'`: a missing or empty name falls back to the default. */
  function DisplayName(name: Option<string>): (r: string)
    ensures r != ""
    ensures name.Some? && name.value != "" ==> r == name.value
  {
    if name.Some? && name.value != "" then name.value else DEFAULT_NAME
  }

  /**
   * `.map(n => n[0]).join('')`: the first character of every word. The first
   * character of an empty word is `undefined`, which `join` writes as "".
   */
  function Heads(words: seq<string>): (r: string)
    ensures |r| <= |words|
    decreases |words|
  {
    if words == [] then ""
    else (if words[0] == "" then "" else [words[0][0]]) + Heads(words[1..])
  }

  /** The number of non-empty words. */
  function CountWords(words: seq<string>): nat
    decreases |words|
  {
    if words == [] then 0
    else (if words[0] == "" then 0 else 1) + CountWords(words[1..])
  }

  /** `s.slice(0, n)`. */
  function Take(s: string, n: nat): (r: string)
    ensures |r| == if |s| < n then |s| else n
    ensures r == s[..|r|]
  {
    if |s| < n then s else s[..n]
  }

  /** `toUpperCase` on one character; only the ASCII letters a-z are mapped. */
  function UpperChar(c: char): (u: char)
    ensures !('a' <= u <= 'z')
    ensures 'a' <= c <= 'z' ==> 'A' <= u <= 'Z' && u as int - 'A' as int == c as int - 'a' as int
    ensures !('a' <= c <= 'z') ==> u == c
  {
    if 'a' <= c <= 'z' then (c as int - 32) as char else c
  }

  /** `s.toUpperCase()`, character by character. */
  function Upper(s: string): (r: string)
    ensures |r| == |s|
    ensures forall i :: 0 <= i < |s| && 'a' <= s[i] <= 'z' ==> r[i] as int == s[i] as int - 32
    ensures forall i :: 0 <= i < |s| ==> !('a' <= r[i] <= 'z') && (!('a' <= s[i] <= 'z') ==> r[i] == s[i])
  {
    seq(|s|, i requires 0 <= i < |s| => UpperChar(s[i]))
  }

  /** The avatar initials. */
  function Initials(name: Option<string>): (r: string)
    ensures |r| <= 2
    ensures forall i :: 0 <= i < |r| ==> !('a' <= r[i] <= 'z')
  {
    Upper(Take(Heads(Split(DisplayName(name), ' ')), 2))
  }

  /** Heads of a concatenation are the concatenated heads. */
  lemma {:induction false} HeadsAppend(a: seq<string>, b: seq<string>)
    ensures Heads(a + b) == Heads(a) + Heads(b)
    decreases |a|
  {
    if a == [] {
      assert a + b == b;
    } else {
      var h := if a[0] == "" then "" else [a[0][0]];
      assert (a + b)[0] == a[0] && (a + b)[1..] == a[1..] + b;
      assert Heads(a + b) == h + Heads(a[1..] + b);
      HeadsAppend(a[1..], b);
      assert Heads(a) == h + Heads(a[1..]);
    }
  }

  /** One head per non-empty word. */
  lemma {:induction false} HeadsLength(words: seq<string>)
    ensures |Heads(words)| == CountWords(words)
    decreases |words|
  {
    if words != [] {
      HeadsLength(words[1..]);
    }
  }

  /** An empty word, as produced by two spaces in a row, contributes no character. */
  lemma EmptyWordSkipped(a: seq<string>, b: seq<string>)
    ensures Heads(a + [""] + b) == Heads(a + b)
  {
    HeadsAppend(a + [""], b);
    HeadsAppend(a, [""]);
    HeadsAppend(a, b);
  }

  /** The number of initials is the number of non-empty words, capped at 2. */
  lemma InitialsCount(name: Option<string>)
    ensures var n := CountWords(Split(DisplayName(name), ' '));
            |Initials(name)| == if n < 2 then n else 2
  {
    HeadsLength(Split(DisplayName(name), ' '));
  }

  /** A name of two words gives the upper-cased first letters of both. */
  lemma TwoWordInitials(a: string, b: string)
    requires a != "" && b != "" && ' ' !in a && ' ' !in b
    ensures Initials(Some(a + " " + b)) == [UpperChar(a[0]), UpperChar(b[0])]
  {
    SplitAtFirstSeparator(a, b, ' ');
    SplitWithoutSeparator(b, ' ');
    assert a + " " + b == a + [' '] + b;
    assert Heads([a, b]) == [a[0], b[0]];
  }

  /** Without a name the initials are those of the default name: "AR". */
  lemma DefaultInitials()
    ensures Initials(None) == "AR"
    ensures Initials(Some("")) == "AR"
  {
    var n := "Alex" + " " + "Rivera";
    assert n == DEFAULT_NAME;
    TwoWordInitials("Alex", "Rivera");
    assert DisplayName(None) == n && DisplayName(Some("")) == n;
    assert Initials(None) == Initials(Some(n)) && Initials(Some("")) == Initials(Some(n));
  }

  /** One rendered breadcrumb item. */
  datatype Crumb = Crumb(text: string, chevron: bool, active: bool)

  /** `breadcrumbs.map((crumb, i) => ...)`: the chevron and active flags of each item. */
  function Breadcrumbs(labels: seq<string>): (r: seq<Crumb>)
    ensures |r| == |labels|
    ensures forall i :: 0 <= i < |r| ==> r[i].text == labels[i]
    ensures forall i :: 0 <= i < |r| ==> (r[i].chevron <==> i > 0) && (r[i].active <==> i == |r| - 1)
  {
    seq(|labels|, i requires 0 <= i < |labels| => Crumb(labels[i], i > 0, i == |labels| - 1))
  }

  /**
   * Exactly the last crumb is active, and none when there are no crumbs: the
   * contract of `Breadcrumbs` restated as the set of active positions.
   */
  lemma ExactlyLastActive(labels: seq<string>)
    ensures var r := Breadcrumbs(labels);
            (set i | 0 <= i < |r| && r[i].active) ==
              if labels == [] then {} else {|labels| - 1}
  {
    var r := Breadcrumbs(labels);
    if labels != [] {
      assert r[|labels| - 1].active;
    }
  }

  /** The text of a trail: each item's chevron, if any, then its label. */
  function Render(cs: seq<Crumb>): string
    decreases |cs|
  {
    if cs == [] then "" else (if cs[0].chevron then "›" else "") + cs[0].text + Render(cs[1..])
  }

  /** From the second crumb on, the trail reads as a chevron before each label. */
  lemma {:induction false} RenderFrom(labels: seq<string>, k: nat)
    requires 1 <= k < |labels|
    ensures Render(Breadcrumbs(labels)[k..]) == "›" + Join(labels[k..], "›")
    decreases |labels| - k
  {
    var cs := Breadcrumbs(labels)[k..];
    assert cs[0] == Crumb(labels[k], true, k == |labels| - 1);
    assert cs[1..] == Breadcrumbs(labels)[k + 1..];
    assert Render(cs) == "›" + labels[k] + Render(cs[1..]);
    var rest := labels[k..];
    assert rest[0] == labels[k] && rest[1..] == labels[k + 1..];
    if k + 1 < |labels| {
      RenderFrom(labels, k + 1);
      assert Join(rest, "›") == labels[k] + "›" + Join(labels[k + 1..], "›");
    } else {
      assert |rest| == 1;
    }
  }

  /** The rendered trail is the labels joined by chevrons. */
  lemma RenderTrail(labels: seq<string>)
    ensures Render(Breadcrumbs(labels)) == Join(labels, "›")
  {
    if |labels| > 1 {
      RenderFrom(labels, 1);
    }
  }
}
