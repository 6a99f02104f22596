/**
  The path check at the edge of the MCP server, and what it means under percent-decoding (RFC 3986,
  section 2.1) and dot-segment removal (RFC 3986, section 5.2.4).

  A decoded octet is kept as the character with its code; octets of multi-byte characters lie
  outside ASCII and play no part here.
 */
module EdgeGuard {
  import opened Options
  import opened Text

  predicate ContainsMatrixParams(path: string) {
    ';' in path
  }

  predicate IsDots(segment: string) {
    segment == "." || segment == ".."
  }

  predicate ContainsPathConfusion(path: string) {
    var lower := Lower(path);
    || Contains(lower, "%2e") || Contains(lower, "%2f") || Contains(lower, "%5c")
    || '\\' in path
    || exists segment | segment in Split(path, '/') :: IsDots(segment)
  }

  predicate Accepts(path: string) {
    !ContainsMatrixParams(path) && !ContainsPathConfusion(path)
  }

  // ---- Percent-decoding -------------------------------------------------------------------

  function HexValue(c: char): Option<nat> {
    if '0' <= c <= '9' then Some((c as int) - ('0' as int))
    else if 'a' <= c <= 'f' then Some((c as int) - ('a' as int) + 10)
    else if 'A' <= c <= 'F' then Some((c as int) - ('A' as int) + 10)
    else None
  }

  predicate EscapeAtHead(s: string) {
    |s| >= 3 && s[0] == '%' && HexValue(s[1]).Some? && HexValue(s[2]).Some?
  }

  function EscapedChar(s: string): char
    requires EscapeAtHead(s)
  {
    (HexValue(s[1]).value * 16 + HexValue(s[2]).value) as char
  }

  /** One pass of percent-decoding; a `%` that starts no escape stays. */
  function Decode(s: string): string {
    if s == [] then []
    else if EscapeAtHead(s) then [EscapedChar(s)] + Decode(s[3..])
    else [s[0]] + Decode(s[1..])
  }

  function DecodeEach(parts: seq<string>): (r: seq<string>)
    ensures |r| == |parts|
    ensures forall i | 0 <= i < |parts| :: r[i] == Decode(parts[i])
  {
    if parts == [] then [] else [Decode(parts[0])] + DecodeEach(parts[1..])
  }

  predicate Structural(c: char) {
    c == '.' || c == '/' || c == '\\'
  }

  /** Somewhere in `s` an escape stands for a dot, a slash or a backslash. */
  predicate HidesStructure(s: string) {
    s != [] && ((EscapeAtHead(s) && Structural(EscapedChar(s))) || HidesStructure(s[1..]))
  }

  predicate LowerEscapeAt(s: string, i: nat)
    requires i <= |s|
  {
    var t := Lower(s)[i..];
    "%2e" <= t || "%2f" <= t || "%5c" <= t
  }

  lemma LowerChars(a: char, b: char)
    ensures HexValue(a).Some? && HexValue(b).Some? && HexValue(a).value * 16 + HexValue(b).value == 0x2e
      <==> a == '2' && LowerChar(b) == 'e'
    ensures HexValue(a).Some? && HexValue(b).Some? && HexValue(a).value * 16 + HexValue(b).value == 0x2f
      <==> a == '2' && LowerChar(b) == 'f'
    ensures HexValue(a).Some? && HexValue(b).Some? && HexValue(a).value * 16 + HexValue(b).value == 0x5c
      <==> a == '5' && LowerChar(b) == 'c'
  {
    assert LowerChar(b) == 'e' <==> b == 'e' || b == 'E';
    assert LowerChar(b) == 'f' <==> b == 'f' || b == 'F';
    assert LowerChar(b) == 'c' <==> b == 'c' || b == 'C';
  }

  lemma HeadMatches(s: string)
    requires s != []
    ensures LowerEscapeAt(s, 0) <==> EscapeAtHead(s) && Structural(EscapedChar(s))
  {
    var t := Lower(s);
    assert t[0..] == t;
    if |s| >= 3 {
      LowerChars(s[1], s[2]);
      assert t[..3] == [t[0], t[1], t[2]];
      assert LowerChar(s[0]) == '%' <==> s[0] == '%';
      assert LowerChar(s[1]) == '2' <==> s[1] == '2';
      assert LowerChar(s[1]) == '5' <==> s[1] == '5';
      assert "%2e" <= t <==> t[0] == '%' && t[1] == '2' && t[2] == 'e';
      assert "%2f" <= t <==> t[0] == '%' && t[1] == '2' && t[2] == 'f';
      assert "%5c" <= t <==> t[0] == '%' && t[1] == '5' && t[2] == 'c';
      assert '.' as int == 0x2e && '/' as int == 0x2f && '\\' as int == 0x5c;
    }
  }

  lemma {:induction false} HidesStructureSomewhere(s: string)
    ensures HidesStructure(s) <==> exists i :: 0 <= i <= |s| && LowerEscapeAt(s, i)
  {
    if s != [] {
      HeadMatches(s);
      HidesStructureSomewhere(s[1..]);
      forall i | 0 < i <= |s| ensures LowerEscapeAt(s, i) <==> LowerEscapeAt(s[1..], i - 1) {
        assert Lower(s)[i..] == Lower(s[1..])[i - 1..];
      }
      if i :| 0 <= i <= |s[1..]| && LowerEscapeAt(s[1..], i) {
        assert LowerEscapeAt(s, i + 1);
      }
    } else {
      assert Lower(s)[0..] == [];
    }
  }

  /** The guard looks for exactly three things: hidden structure, a backslash, a dot segment. */
  lemma GuardMeaning(path: string)
    ensures ContainsPathConfusion(path) <==>
      || HidesStructure(path)
      || '\\' in path
      || exists segment | segment in Split(path, '/') :: IsDots(segment)
    ensures Accepts(path) <==>
      && ';' !in path && '\\' !in path && !HidesStructure(path)
      && forall segment | segment in Split(path, '/') :: segment != "." && segment != ".."
  {
    HidesStructureSomewhere(path);
    var lower := Lower(path);
    if i :| 0 <= i <= |path| && LowerEscapeAt(path, i) {
      assert "%2e" <= lower[i..] || "%2f" <= lower[i..] || "%5c" <= lower[i..];
    }
    forall i | 0 <= i <= |lower| && ("%2e" <= lower[i..] || "%2f" <= lower[i..] || "%5c" <= lower[i..])
      ensures LowerEscapeAt(path, i)
    {}
  }

  // ---- Decoding keeps the segments --------------------------------------------------------

  lemma {:induction false} SuffixHidesNothing(s: string, n: nat)
    requires n <= |s| && !HidesStructure(s)
    ensures !HidesStructure(s[n..])
  {
    if n > 0 {
      assert s[1..][n - 1..] == s[n..];
      SuffixHidesNothing(s[1..], n - 1);
    }
  }

  lemma {:induction false} PrefixHidesNothing(s: string, n: nat)
    requires n <= |s| && !HidesStructure(s)
    ensures !HidesStructure(s[..n])
  {
    if n > 0 {
      assert s[..n][1..] == s[1..][..n - 1];
      PrefixHidesNothing(s[1..], n - 1);
    }
  }

  lemma HexIsNoSlash(s: string)
    requires EscapeAtHead(s)
    ensures '/' !in s[..3] && s == s[..3] + s[3..]
  {
    assert s[..3] == [s[0], s[1], s[2]];
  }

  /** Decoding an unhidden text cannot make or lose a separator. */
  lemma {:induction false} DecodeKeepsSlash(s: string)
    requires !HidesStructure(s)
    ensures '/' !in s ==> '/' !in Decode(s)
    ensures forall c | c in Decode(s) && Structural(c) :: c in s
    decreases |s|
  {
    if s != [] {
      if EscapeAtHead(s) {
        HexIsNoSlash(s);
        SuffixHidesNothing(s, 3);
        DecodeKeepsSlash(s[3..]);
      } else {
        assert s == [s[0]] + s[1..];
        SuffixHidesNothing(s, 1);
        DecodeKeepsSlash(s[1..]);
      }
    }
  }

  /** Text up to a slash decodes apart from what follows it. */
  lemma {:induction false} DecodeBeforeSlash(p: string, rest: string)
    ensures Decode(p + ['/'] + rest) == Decode(p) + ['/'] + Decode(rest)
    decreases |p|
  {
    var s := p + ['/'] + rest;
    if p == [] {
      assert s[1..] == rest;
      assert !EscapeAtHead(s);
    } else if EscapeAtHead(s) {
      HexIsNoSlash(s);
      assert s[0] != '/' && s[1] != '/' && s[2] != '/';
      assert s[|p|] == '/';
      assert s[3..] == p[3..] + ['/'] + rest;
      DecodeBeforeSlash(p[3..], rest);
    } else {
      assert !EscapeAtHead(p);
      assert s[1..] == p[1..] + ['/'] + rest;
      DecodeBeforeSlash(p[1..], rest);
    }
  }

  /**
    Where nothing is hidden, decoding the whole path and splitting it gives the same segments as
    splitting first and decoding each.
   */
  lemma {:induction false} DecodeCommutesWithSplit(path: string)
    requires !HidesStructure(path)
    ensures Split(Decode(path), '/') == DecodeEach(Split(path, '/'))
    decreases |path|
  {
    var p := FirstPart(path, '/');
    SplitAtFirst(path, '/');
    PrefixHidesNothing(path, |p|);
    assert path[..|p|] == p;
    DecodeKeepsSlash(p);
    if p == path {
      SplitCons(Decode(p), [], '/');
    } else {
      var rest := path[|p| + 1..];
      assert path == p + ['/'] + rest;
      SuffixHidesNothing(path, |p| + 1);
      DecodeCommutesWithSplit(rest);
      DecodeBeforeSlash(p, rest);
      SplitCons(Decode(p), Decode(rest), '/');
    }
  }

  /** Only dots decode to dots when none is hidden. */
  lemma {:induction false} DotsAreLiteral(s: string)
    requires !HidesStructure(s)
    requires forall c | c in Decode(s) :: c == '.'
    ensures Decode(s) == s
    decreases |s|
  {
    if s != [] {
      if EscapeAtHead(s) {
        assert EscapedChar(s) in Decode(s);
        assert false;
      } else {
        SuffixHidesNothing(s, 1);
        var rest := Decode(s[1..]);
        assert Decode(s) == [s[0]] + rest;
        forall c | c in rest ensures c == '.' {
          assert c in Decode(s);
        }
        DotsAreLiteral(s[1..]);
      }
    }
  }

  lemma {:induction false} PartsHideNothing(path: string, segment: string)
    requires !HidesStructure(path) && segment in Split(path, '/')
    ensures !HidesStructure(segment)
    decreases |path|
  {
    var p := FirstPart(path, '/');
    SplitAtFirst(path, '/');
    PrefixHidesNothing(path, |p|);
    assert path[..|p|] == p;
    if segment != p {
      SuffixHidesNothing(path, |p| + 1);
      PartsHideNothing(path[|p| + 1..], segment);
    }
  }

  /** In an accepted path no segment, decoded once, is a dot segment, and no backslash appears. */
  lemma AcceptedSegmentsDecodeSafely(path: string)
    requires Accepts(path)
    ensures Split(Decode(path), '/') == DecodeEach(Split(path, '/'))
    ensures forall segment | segment in Split(Decode(path), '/') :: !IsDots(segment)
    ensures '\\' !in Decode(path)
  {
    GuardMeaning(path);
    DecodeCommutesWithSplit(path);
    DecodeKeepsSlash(path);
    var parts := Split(path, '/');
    forall segment | segment in DecodeEach(parts) ensures !IsDots(segment) {
      var i :| 0 <= i < |parts| && segment == DecodeEach(parts)[i];
      assert parts[i] in parts;
      PartsHideNothing(path, parts[i]);
      if IsDots(segment) {
        DotsAreLiteral(parts[i]);
      }
    }
  }

  // ---- Dot-segment removal ----------------------------------------------------------------

  /** The output without its last segment and the slash before it. */
  function DropLast(output: string): string {
    if output == [] then []
    else if output[|output| - 1] == '/' then output[..|output| - 1]
    else DropLast(output[..|output| - 1])
  }

  /** The first segment with a slash before it, if there is one. */
  function Leading(input: string): string
    requires input != []
  {
    [input[0]] + FirstPart(input[1..], '/')
  }

  /** The input buffer and the output buffer of the algorithm. */
  datatype Buffers = Buffers(input: string, output: string)

  /** One round of the loop of section 5.2.4: the first of rules A to E that applies. */
  function Round(b: Buffers): (r: Buffers)
    requires b.input != []
    ensures |r.input| < |b.input|
  {
    var input := b.input;
    if "../" <= input then b.(input := input[3..])
    else if "./" <= input then b.(input := input[2..])
    else if "/./" <= input then b.(input := input[2..])
    else if input == "/." then b.(input := "/")
    else if "/../" <= input then Buffers(input[3..], DropLast(b.output))
    else if input == "/.." then Buffers("/", DropLast(b.output))
    else if IsDots(input) then b.(input := [])
    else Buffers(input[|Lead(input)|..], b.output + Lead(input))
  }

  function RemoveDots(b: Buffers): string
    decreases |b.input|
  {
    if b.input == [] then b.output else RemoveDots(Round(b))
  }

  /** What rule E moves: the first segment, with the slash before it if there is one. */
  function Lead(input: string): (lead: string)
    requires input != []
    ensures lead <= input && lead != []
  {
    if input[0] == '/' then Leading(input) else FirstPart(input, '/')
  }

  predicate HasDots(path: string) {
    exists segment | segment in Split(path, '/') :: IsDots(segment)
  }

  /** The first segment, not counting the empty one before an initial slash. */
  function FirstSegment(input: string): string {
    if "/" <= input then FirstPart(input[1..], '/') else FirstPart(input, '/')
  }

  /** Some rule among A to D applies. */
  predicate DotRule(input: string) {
    || "../" <= input || "./" <= input || "/./" <= input || input == "/."
    || "/../" <= input || input == "/.." || IsDots(input)
  }

  lemma FirstPartIs(s: string, p: string)
    requires '/' !in p
    ensures FirstPart(s, '/') == p <==> s == p || p + "/" <= s
  {
    var q := FirstPart(s, '/');
    if s == p || p + "/" <= s {
      assert s == p + s[|p|..];
      FirstPartOf(p, s[|p|..], '/');
    }
    if q != s {
      assert s[..|q| + 1] == q + [s[|q|]];
    }
  }

  lemma DotRuleSeesDots(input: string)
    ensures DotRule(input) <==> IsDots(FirstSegment(input))
  {
    if "/" <= input {
      var rest := input[1..];
      assert input == "/" + rest;
      FirstPartIs(rest, ".");
      FirstPartIs(rest, "..");
      assert "./" <= rest <==> "/./" <= input;
      assert "../" <= rest <==> "/../" <= input;
      assert rest == "." <==> input == "/.";
      assert rest == ".." <==> input == "/..";
    } else {
      FirstPartIs(input, ".");
      FirstPartIs(input, "..");
    }
  }

  lemma SlashAddsNoDots(rest: string)
    ensures HasDots("/" + rest) <==> HasDots(rest)
  {
    SplitCons([], rest, '/');
    assert [] + ['/'] + rest == "/" + rest;
  }

  /** The segments of `s` are the one before the first slash and those of what follows it. */
  lemma HasDotsStep(s: string)
    ensures var p := FirstPart(s, '/'); HasDots(s) <==> IsDots(p) || HasDots(s[|p|..])
  {
    var p := FirstPart(s, '/');
    SplitAtFirst(s, '/');
    if p == s {
      assert s[|p|..] == [];
    } else {
      var rest := s[|p| + 1..];
      assert s[|p|..] == "/" + rest;
      SlashAddsNoDots(rest);
      assert Split(s, '/') == [p] + Split(rest, '/');
      assert HasDots(s) <==> IsDots(p) || HasDots(rest);
    }
  }

  lemma LeadKeepsDots(input: string)
    requires input != [] && !DotRule(input)
    ensures HasDots(input) <==> HasDots(input[|Lead(input)|..])
  {
    DotRuleSeesDots(input);
    if input[0] == '/' {
      var rest := input[1..];
      assert input == "/" + rest;
      SlashAddsNoDots(rest);
      HasDotsStep(rest);
      assert input[|Lead(input)|..] == rest[|FirstPart(rest, '/')|..];
    } else {
      HasDotsStep(input);
    }
  }

  lemma DotRuleMeansDots(input: string)
    requires DotRule(input)
    ensures HasDots(input)
  {
    DotRuleSeesDots(input);
    if "/" <= input {
      assert input == "/" + input[1..];
      SlashAddsNoDots(input[1..]);
      HasDotsStep(input[1..]);
    } else {
      HasDotsStep(input);
    }
  }

  lemma {:induction false} DropLastShrinks(output: string)
    ensures |DropLast(output)| <= |output|
    decreases |output|
  {
    if output != [] && output[|output| - 1] != '/' {
      DropLastShrinks(output[..|output| - 1]);
    }
  }

  /** A round without a dot rule only moves text; a round with one removes some. */
  lemma RoundShrinks(b: Buffers)
    requires b.input != []
    ensures DotRule(b.input) ==> |Round(b).input| + |Round(b).output| < |b.input| + |b.output|
    ensures !DotRule(b.input) ==> Round(b).output + Round(b).input == b.output + b.input
  {
    DropLastShrinks(b.output);
    if !DotRule(b.input) {
      var lead := Lead(b.input);
      assert b.input == lead + b.input[|lead|..];
    }
  }

  lemma RoundKeepsDots(b: Buffers)
    requires b.input != []
    ensures DotRule(b.input) ==> HasDots(b.input)
    ensures !DotRule(b.input) ==> (HasDots(b.input) <==> HasDots(Round(b).input))
  {
    if DotRule(b.input) {
      DotRuleMeansDots(b.input);
    } else {
      LeadKeepsDots(b.input);
    }
  }

  lemma EmptyHasNoDots()
    ensures !HasDots([])
  {}

  /** The algorithm never adds text, and it removes some exactly when the input has a dot segment. */
  lemma {:induction false} RemoveDotsShrinks(b: Buffers)
    ensures |RemoveDots(b)| <= |b.input| + |b.output|
    ensures HasDots(b.input) ==> |RemoveDots(b)| < |b.input| + |b.output|
    ensures !HasDots(b.input) ==> RemoveDots(b) == b.output + b.input
    decreases |b.input|
  {
    if b.input == [] {
      EmptyHasNoDots();
    } else {
      RoundShrinks(b);
      RoundKeepsDots(b);
      RemoveDotsShrinks(Round(b));
      assert |Round(b).output + Round(b).input| == |Round(b).input| + |Round(b).output|;
    }
  }

  /** Dot-segment removal leaves a path as it is exactly when the path has no dot segment. */
  lemma RemoveDotsUnchanged(path: string)
    ensures RemoveDots(Buffers(path, [])) == path <==> !HasDots(path)
  {
    RemoveDotsShrinks(Buffers(path, []));
  }

  /** The algorithm applied to an accepted path, or to its decoded form, changes nothing. */
  lemma AcceptedPathsHaveNoDots(path: string)
    requires Accepts(path)
    ensures RemoveDots(Buffers(path, [])) == path
    ensures RemoveDots(Buffers(Decode(path), [])) == Decode(path)
  {
    AcceptedSegmentsDecodeSafely(path);
    RemoveDotsUnchanged(path);
    RemoveDotsUnchanged(Decode(path));
  }
}
