/**
 * Hashtag extraction: the JavaScript expression `text.match(/#[^\s]+/g)` and the
 * normalisation `token.slice(1).toLowerCase()` that turns a token into a tag name.
 *
 * `Matches` is the regular expression's global scan; `WordTags(Words(s))` is an
 * independent reading of the same thing, one word at a time, and
 * `MatchesByWord` proves the two agree.
 */
module Hashtag {
  import opened Common


  /** JavaScript's `\s`: the WhiteSpace and LineTerminator code points of ECMAScript. */
  predicate IsSpace(c: char)
    ensures c as int < 0x80 ==> (IsSpace(c) <==> c == ' ' || 0x09 <= c as int <= 0x0D)
    ensures IsSpace(c) ==> c != '#'
  {
    var n := c as int;
    || (0x09 <= n <= 0x0D)   // tab, line feed, vertical tab, form feed, carriage return
    || n == 0x20 || n == 0xA0 || n == 0x1680
    || (0x2000 <= n <= 0x200A)
    || n == 0x2028 || n == 0x2029 || n == 0x202F || n == 0x205F || n == 0x3000 || n == 0xFEFF
  }

  predicate NoSpace(s: string)
  {
    forall k :: 0 <= k < |s| ==> !IsSpace(s[k])
  }

  /** What `/#[^\s]+/` matches: a `#` followed by one or more non-whitespace characters. */
  predicate IsHashToken(t: string)
  {
    |t| >= 2 && t[0] == '#' && NoSpace(t)
  }

  /** The length of the longest whitespace-free prefix of `s`. */
  function RunLength(s: string): (n: nat)
    ensures n <= |s|
    ensures NoSpace(s[..n])
    ensures n == |s| || IsSpace(s[n])
    decreases |s|
  {
    if s == [] || IsSpace(s[0]) then 0 else 1 + RunLength(s[1..])
  }

  /**
   * The successive matches of `/#[^\s]+/g` in `s`: at each position the pattern
   * either matches greedily up to the next whitespace, and the scan resumes there,
   * or fails, and the scan moves on by one character.
   */
  function Matches(s: string): (ms: seq<string>)
    ensures forall t :: t in ms ==> IsHashToken(t)
    decreases |s|
  {
    if s == [] then []
    else if s[0] == '#' && |s| >= 2 && !IsSpace(s[1]) then
      var n := RunLength(s);
      [s[..n]] + Matches(s[n..])
    else
      Matches(s[1..])
  }

  /** `String.prototype.match` with a global pattern: `null` when nothing matches. */
  function MatchAll(s: string): (r: Option<seq<string>>)
    ensures r.None? <==> Matches(s) == []
    ensures r.Some? ==> r.value == Matches(s)
  {
    var ms := Matches(s);
    if ms == [] then None else Some(ms)
  }

  /** The whitespace-separated words of `s`, in order. */
  function Words(s: string): (ws: seq<string>)
    ensures forall w :: w in ws ==> |w| >= 1 && NoSpace(w)
    decreases |s|
  {
    if s == [] then []
    else if IsSpace(s[0]) then Words(s[1..])
    else
      var n := RunLength(s);
      [s[..n]] + Words(s[n..])
  }

  /** The hashtag a single word carries: from its first `#` that is not its last character to its end. */
  function WordTag(w: string): seq<string>
    decreases |w|
  {
    if |w| < 2 then []
    else if w[0] == '#' then [w]
    else WordTag(w[1..])
  }

  function WordTags(ws: seq<string>): seq<string>
    decreases |ws|
  {
    if ws == [] then [] else WordTag(ws[0]) + WordTags(ws[1..])
  }

  /** Inside one word the scan yields that word's hashtag and then resumes after the word. */
  lemma {:induction false} MatchesWithinWord(s: string)
    requires s != [] && !IsSpace(s[0])
    ensures Matches(s) == WordTag(s[..RunLength(s)]) + Matches(s[RunLength(s)..])
    decreases |s|
  {
    var n := RunLength(s);
    if s[0] == '#' && |s| >= 2 && !IsSpace(s[1]) {
      assert s[..n][0] == '#';
    } else if n == 1 {
      assert s[1..] == s[n..];
    } else {
      assert s[0] != '#';
      var t := s[1..];
      assert RunLength(t) == n - 1;
      MatchesWithinWord(t);
      assert t[..n - 1] == s[..n][1..];
      assert t[n - 1..] == s[n..];
    }
  }

  /** The regular expression's scan and the word-by-word reading give the same tokens, in the same order. */
  lemma {:induction false} MatchesByWord(s: string)
    ensures Matches(s) == WordTags(Words(s))
    decreases |s|
  {
    if s == [] {
    } else if IsSpace(s[0]) {
      MatchesByWord(s[1..]);
    } else {
      var n := RunLength(s);
      MatchesWithinWord(s);
      MatchesByWord(s[n..]);
      var ws := Words(s);
      assert ws == [s[..n]] + Words(s[n..]);
      assert ws[0] == s[..n] && ws[1..] == Words(s[n..]);
    }
  }

  /** A whitespace-free prefix followed by whitespace (or nothing) is exactly the leading run. */
  lemma {:induction false} RunLengthOfWord(w: string, rest: string)
    requires NoSpace(w) && (rest == [] || IsSpace(rest[0]))
    ensures RunLength(w + rest) == |w|
    decreases |w|
  {
    if w != [] {
      assert (w + rest)[1..] == w[1..] + rest;
      RunLengthOfWord(w[1..], rest);
    } else {
      assert w + rest == rest;
    }
  }

  /** A token standing before whitespace (or at the end) is matched whole, and the scan goes on after it. */
  lemma MatchesTokenThen(w: string, rest: string)
    requires IsHashToken(w) && (rest == [] || IsSpace(rest[0]))
    ensures Matches(w + rest) == [w] + Matches(rest)
  {
    RunLengthOfWord(w, rest);
    var s := w + rest;
    assert s[0] == '#' && !IsSpace(s[1]);
    assert s[..|w|] == w && s[|w|..] == rest;
  }

  /** Whitespace never starts a match: the scan steps over it. */
  lemma MatchesSkipSpace(c: char, rest: string)
    requires IsSpace(c)
    ensures Matches([c] + rest) == Matches(rest)
  {
    assert ([c] + rest)[1..] == rest;
  }

  // ----- name normalisation -----

  /** `toLowerCase` on the ASCII letters; every other character is left as it is. */
  function LowerChar(c: char): char
  {
    if 'A' <= c <= 'Z' then (c as int - 'A' as int + 'a' as int) as char else c
  }

  function Lower(s: string): (r: string)
    ensures |r| == |s|
    ensures forall k :: 0 <= k < |s| ==> r[k] == LowerChar(s[k])
  {
    seq(|s|, k requires 0 <= k < |s| => LowerChar(s[k]))
  }

  predicate IsLower(s: string)
  {
    forall k :: 0 <= k < |s| ==> !('A' <= s[k] <= 'Z')
  }

  /** JavaScript's `slice(1)`: everything after the first character, or "" for "". */
  function SliceOne(s: string): (r: string)
    ensures |s| >= 1 ==> |r| == |s| - 1 && [s[0]] + r == s
    ensures s == [] ==> r == []
  {
    if s == [] then [] else s[1..]
  }

  /** The tag name a token stands for: `token.slice(1).toLowerCase()`. */
  function TagName(token: string): (r: string)
    ensures |token| >= 1 ==> |r| == |token| - 1 && forall k :: 0 <= k < |r| ==> r[k] == LowerChar(token[k + 1])
    ensures token == [] ==> r == []
    ensures IsLower(r)
  {
    Lower(SliceOne(token))
  }

  /** The names of a match list, in order (`tagArray.map(tag => tag.slice(1).toLowerCase())`). */
  function Names(tokens: seq<string>): (names: seq<string>)
    ensures |names| == |tokens|
    ensures forall k :: 0 <= k < |tokens| ==> names[k] == TagName(tokens[k])
  {
    seq(|tokens|, k requires 0 <= k < |tokens| => TagName(tokens[k]))
  }

  /** The set of tag names a text carries. */
  function ExtractNames(s: string): set<string>
  {
    set t | t in Matches(s) :: TagName(t)
  }

  /** Lowering is idempotent and leaves no upper-case letter. */
  lemma LowerIsCanonical(s: string)
    ensures IsLower(Lower(s))
    ensures Lower(Lower(s)) == Lower(s)
  {
  }

  /**
   * Every extracted name is non-empty, lower-case and whitespace-free: it is a
   * token minus its leading `#`, and it may itself contain `#`.
   */
  lemma ExtractedNamesAreCanonical(s: string)
    ensures forall name :: name in ExtractNames(s) ==>
              |name| >= 1 && IsLower(name) && NoSpace(name) && Lower(name) == name
  {
    forall name | name in ExtractNames(s)
      ensures |name| >= 1 && IsLower(name) && NoSpace(name) && Lower(name) == name
    {
      var t :| t in Matches(s) && name == TagName(t);
      assert IsHashToken(t);
      assert forall k :: 0 <= k < |name| ==> name[k] == LowerChar(t[k + 1]);
      LowerIsCanonical(t[1..]);
    }
  }

  /** Each string of a list, lowered. */
  function LowerEach(ms: seq<string>): (ls: seq<string>)
    ensures |ls| == |ms|
    ensures forall k :: 0 <= k < |ms| ==> ls[k] == Lower(ms[k])
  {
    seq(|ms|, k requires 0 <= k < |ms| => Lower(ms[k]))
  }

  /** Lowering commutes with cutting a text at `n`. */
  lemma LowerSplit(s: string, n: nat)
    requires n <= |s|
    ensures Lower(s)[..n] == Lower(s[..n]) && Lower(s)[n..] == Lower(s[n..])
  {
  }

  /** Lowering the text lowers each match and changes nothing else about the scan. */
  lemma {:induction false} MatchesOfLower(s: string)
    ensures Matches(Lower(s)) == LowerEach(Matches(s))
    decreases |s|
  {
    if s == [] {
      assert Lower(s) == [];
    } else if s[0] == '#' && |s| >= 2 && !IsSpace(s[1]) {
      MatchesOfLower(s[RunLength(s)..]);
      LowerTokenStep(s);
    } else {
      MatchesOfLower(s[1..]);
      LowerSkipStep(s);
    }
  }

  /** The scan step at a token start commutes with lowering. */
  lemma LowerTokenStep(s: string)
    requires |s| >= 2 && s[0] == '#' && !IsSpace(s[1])
    requires Matches(Lower(s[RunLength(s)..])) == LowerEach(Matches(s[RunLength(s)..]))
    ensures Matches(Lower(s)) == LowerEach(Matches(s))
  {
    var n := RunLength(s);
    var l := Lower(s);
    RunLengthOfLowerEq(s);
    assert l[0] == '#' && l[1] == LowerChar(s[1]);
    assert Matches(l) == [l[..n]] + Matches(l[n..]);
    LowerSplit(s, n);
    LowerEachCons(s[..n], Matches(s[n..]));
  }

  lemma LowerEachCons(x: string, rest: seq<string>)
    ensures LowerEach([x] + rest) == [Lower(x)] + LowerEach(rest)
  {
  }

  /** The scan step that moves on by one character commutes with lowering. */
  lemma LowerSkipStep(s: string)
    requires s != [] && !(s[0] == '#' && |s| >= 2 && !IsSpace(s[1]))
    requires Matches(Lower(s[1..])) == LowerEach(Matches(s[1..]))
    ensures Matches(Lower(s)) == LowerEach(Matches(s))
  {
    var l := Lower(s);
    LowerSplit(s, 1);
    assert l[0] == '#' <==> s[0] == '#';
    assert |s| >= 2 ==> (IsSpace(l[1]) <==> IsSpace(s[1]));
  }

  lemma {:induction false} RunLengthOfLowerEq(s: string)
    ensures RunLength(Lower(s)) == RunLength(s)
    decreases |s|
  {
    if s != [] {
      assert Lower(s)[1..] == Lower(s[1..]);
      RunLengthOfLowerEq(s[1..]);
    }
  }

  /** Tag names are case-insensitive: a text and its lower-case form carry the same names. */
  lemma ExtractNamesIgnoresCase(s: string)
    ensures ExtractNames(Lower(s)) == ExtractNames(s)
  {
    MatchesOfLower(s);
    var ms, ls := Matches(s), Matches(Lower(s));
    assert |ls| == |ms| && forall k :: 0 <= k < |ms| ==> ls[k] == Lower(ms[k]);
    forall t | t in ms ensures TagName(t) in ExtractNames(Lower(s))
    {
      var k :| 0 <= k < |ms| && ms[k] == t;
      TagNameOfLower(t);
      assert ls[k] in ls;
    }
    forall t | t in ls ensures TagName(t) in ExtractNames(s)
    {
      var k :| 0 <= k < |ls| && ls[k] == t;
      TagNameOfLower(ms[k]);
      assert ms[k] in ms;
    }
  }

  lemma TagNameOfLower(t: string)
    ensures TagName(Lower(t)) == TagName(t)
  {
    if t != [] {
      assert SliceOne(Lower(t)) == Lower(t[1..]);
      LowerIsCanonical(t[1..]);
    }
  }
}

/** Worked examples of the tokeniser on concrete texts. */
module HashtagExamples {
  import opened Hashtag

  /** A token runs to the next whitespace, `#` included: `"#a##b c#"` has the one match `"#a##b"`. */
  lemma ExampleInnerHash()
    ensures Matches("#a##b c#") == ["#a##b"]
  {
    MatchesTokenThen("#a##b", " c#");
    assert "#a##b" + " c#" == "#a##b c#";
    assert Matches(" c#") == [];
  }

  /** A token after a single space is matched whole, and the scan continues after it. */
  lemma MatchesSpaceThenToken(w: string, rest: string)
    requires IsHashToken(w) && (rest == [] || IsSpace(rest[0]))
    ensures Matches([' '] + (w + rest)) == [w] + Matches(rest)
  {
    MatchesSkipSpace(' ', w + rest);
    MatchesTokenThen(w, rest);
  }

  /** Three tokens separated by single spaces are the three matches, in order. */
  lemma MatchesThreeTokens(a: string, b: string, c: string)
    requires IsHashToken(a) && IsHashToken(b) && IsHashToken(c)
    ensures Matches(a + ([' '] + (b + ([' '] + c)))) == [a, b, c]
  {
    var r3: string := [' '] + c;
    MatchesSpaceThenToken(c, []);
    assert c + [] == c;
    assert Matches(r3) == [c];
    var r2: string := [' '] + (b + r3);
    MatchesSpaceThenToken(b, r3);
    assert Matches(r2) == [b, c];
    MatchesTokenThen(a, r2);
  }

  /** `"#Go #go #RUST"` has the three matches `#Go`, `#go`, `#RUST`, in order. */
  lemma ExampleMixedCaseMatches()
    ensures Matches("#Go #go #RUST") == ["#Go", "#go", "#RUST"]
  {
    MatchesThreeTokens("#Go", "#go", "#RUST");
    assert "#Go" + ([' '] + ("#go" + ([' '] + "#RUST"))) == "#Go #go #RUST";
  }

  /** A text with three matches carries the names of those three. */
  lemma NamesOfThree(s: string, a: string, b: string, c: string)
    requires Matches(s) == [a, b, c]
    ensures ExtractNames(s) == {TagName(a), TagName(b), TagName(c)}
  {
    assert forall t :: t in Matches(s) <==> t == a || t == b || t == c;
  }

  /** The names of the three example tokens. */
  lemma ExampleTokenNames()
    ensures TagName("#Go") == "go" && TagName("#go") == "go" && TagName("#RUST") == "rust"
  {
    assert Lower("Go") == "go";
    assert Lower("go") == "go";
    assert Lower("RUST") == "rust";
  }

  /** `"#Go #go #RUST"` names exactly the tags `go` and `rust`: the two spellings of `go` are one tag. */
  lemma ExampleMixedCase()
    ensures ExtractNames("#Go #go #RUST") == {"go", "rust"}
  {
    ExampleMixedCaseMatches();
    NamesOfThree("#Go #go #RUST", "#Go", "#go", "#RUST");
    ExampleTokenNames();
  }
}
