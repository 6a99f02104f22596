/** String operations the components share: ASCII case, trimming, searching and splitting. */
module Text {
  import opened Sequences

  function LowerChar(c: char): char {
    if 'A' <= c <= 'Z' then c + ' ' else c
  }

  /** ASCII letters to lower case; every other character stays. */
  function Lower(s: string): (r: string)
    ensures |r| == |s|
  {
    seq(|s|, i requires 0 <= i < |s| => LowerChar(s[i]))
  }

  /** The characters with the Unicode property White_Space. */
  predicate IsWhitespace(c: char) {
    || '\U{9}' <= c <= '\U{D}' || c == ' ' || c == '\U{85}' || c == '\U{A0}' || c == '\U{1680}'
    || '\U{2000}' <= c <= '\U{200A}' || c == '\U{2028}' || c == '\U{2029}' || c == '\U{202F}'
    || c == '\U{205F}' || c == '\U{3000}'
  }

  function TrimStart(s: string): string {
    if s != [] && IsWhitespace(s[0]) then TrimStart(s[1..]) else s
  }

  function TrimEnd(s: string): string {
    if s != [] && IsWhitespace(s[|s| - 1]) then TrimEnd(s[..|s| - 1]) else s
  }

  function Trim(s: string): string {
    TrimEnd(TrimStart(s))
  }

  predicate Blank(s: string) {
    Trim(s) == []
  }

  lemma LowerMeans(s: string, i: nat)
    requires i < |s|
    ensures 'A' <= s[i] <= 'Z' ==> Lower(s)[i] as int - 'a' as int == s[i] as int - 'A' as int
    ensures !('A' <= s[i] <= 'Z') ==> Lower(s)[i] == s[i]
  {}

  /** Trimming takes white space from both ends, and all of it. */
  lemma TrimMeans(s: string) returns (front: string, back: string)
    ensures s == front + Trim(s) + back
    ensures forall c | c in front + back :: IsWhitespace(c)
    ensures var t := Trim(s); t != [] ==> !IsWhitespace(t[0]) && !IsWhitespace(t[|t| - 1])
  {
    front := TrimStartMeans(s);
    back := TrimEndMeans(TrimStart(s));
    assert s == front + (Trim(s) + back) == front + Trim(s) + back;
    if Trim(s) != [] {
      assert TrimStart(s)[0] == Trim(s)[0];
    }
  }

  lemma {:induction false} TrimStartMeans(s: string) returns (front: string)
    ensures s == front + TrimStart(s) && forall c | c in front :: IsWhitespace(c)
    ensures TrimStart(s) != [] ==> !IsWhitespace(TrimStart(s)[0])
  {
    front := [];
    if s != [] && IsWhitespace(s[0]) {
      front := TrimStartMeans(s[1..]);
      assert s == [s[0]] + s[1..] == [s[0]] + front + TrimStart(s);
      front := [s[0]] + front;
    } else {
      assert s == [] + TrimStart(s);
    }
  }

  lemma {:induction false} TrimEndMeans(s: string) returns (back: string)
    ensures s == TrimEnd(s) + back && forall c | c in back :: IsWhitespace(c)
    ensures var t := TrimEnd(s); t != [] ==> !IsWhitespace(t[|t| - 1])
    decreases |s|
  {
    back := [];
    if s != [] && IsWhitespace(s[|s| - 1]) {
      var last := |s| - 1;
      back := TrimEndMeans(s[..last]);
      assert s == s[..last] + [s[last]] == TrimEnd(s) + (back + [s[last]]);
      back := back + [s[last]];
    } else {
      assert s == TrimEnd(s) + [];
    }
  }

  predicate Contains(s: string, t: string) {
    exists i :: 0 <= i <= |s| && t <= s[i..]
  }

  /** The parts of `s` between occurrences of `sep`; always at least one. */
  function Split(s: string, sep: char): (parts: seq<string>)
    ensures parts != []
  {
    if s == [] then [[]]
    else
      var rest := Split(s[1..], sep);
      if s[0] == sep then [[]] + rest else [[s[0]] + rest[0]] + rest[1..]
  }

  /** What comes before the first `sep`. */
  function FirstPart(s: string, sep: char): (p: string)
    ensures p <= s && sep !in p
    ensures |p| < |s| ==> s[|p|] == sep
  {
    if s == [] || s[0] == sep then [] else [s[0]] + FirstPart(s[1..], sep)
  }

  lemma DropMore<T>(s: seq<T>, n: nat)
    requires n < |s|
    ensures s[1..][n..] == s[n + 1..]
  {}

  lemma {:induction false} SplitAtFirst(s: string, sep: char)
    ensures var p := FirstPart(s, sep);
      Split(s, sep) == if p == s then [s] else [p] + Split(s[|p| + 1..], sep)
  {
    if s != [] && s[0] != sep {
      var q := FirstPart(s[1..], sep);
      SplitAtFirst(s[1..], sep);
      assert s == [s[0]] + s[1..];
      if q != s[1..] {
        DropMore(s, |q| + 1);
      }
    }
  }

  /** Splitting a text that puts `sep` behind a part without it. */
  lemma SplitCons(p: string, rest: string, sep: char)
    requires sep !in p
    ensures Split(p + [sep] + rest, sep) == [p] + Split(rest, sep)
    ensures Split(p, sep) == [p]
  {
    FirstPartOf(p, [sep] + rest, sep);
    FirstPartOf(p, [], sep);
    assert p + [] == p;
    assert p + ([sep] + rest) == p + [sep] + rest;
    SplitAtFirst(p + [sep] + rest, sep);
    SplitAtFirst(p, sep);
    assert (p + [sep] + rest)[|p| + 1..] == rest;
  }

  lemma {:induction false} FirstPartOf(p: string, tail: string, sep: char)
    requires sep !in p && (tail != [] ==> tail[0] == sep)
    ensures FirstPart(p + tail, sep) == p
  {
    if p == [] {
      assert p + tail == tail;
    } else {
      assert (p + tail)[1..] == p[1..] + tail;
      FirstPartOf(p[1..], tail, sep);
    }
  }
}
