/**
 * The three string parsers of `RegexUtils`, each the result of one JavaScript
 * regular expression applied with `String.prototype.match` (no flags).
 *
 * Each pattern is described twice: a ghost predicate says, character by
 * character, when the pattern matches at a given position under JavaScript's
 * rules (`.` excludes the four line terminators, `\d` is `[0-9]`, `\w` is
 * `[A-Za-z0-9_]`, `\b` compares the word-ness of the two neighbouring
 * characters, positions outside the string are non-word, `$` is the end of
 * input); a compiled function scans the input the way the engine does
 * (leftmost start, greedy quantifiers with backtracking). The contracts prove
 * that the scan returns exactly the match the engine would report.
 */
module RegexUtils {
  import opened Wrappers

  // ---------------------------------------------------------------------------
  // Character classes
  // ---------------------------------------------------------------------------

  /** `\d` */
  predicate IsDigit(c: char) { '0' <= c <= '9' }

  /** `\w` */
  predicate IsWordChar(c: char) {
    ('a' <= c <= 'z') || ('A' <= c <= 'Z') || IsDigit(c) || c == '_'
  }

  /** The characters that `.` does not match without the `s` flag. */
  predicate IsLineTerminator(c: char) {
    c == '\n' || c == '\r' || c == '\U{2028}' || c == '\U{2029}'
  }

  predicate AllDigits(s: string) {
    forall k :: 0 <= k < |s| ==> IsDigit(s[k])
  }

  predicate NoLineTerminator(s: string) {
    forall k :: 0 <= k < |s| ==> !IsLineTerminator(s[k])
  }

  /** Whether position `k` holds a word character; positions outside `s` do not. */
  predicate WordAt(s: string, k: int) {
    0 <= k < |s| && IsWordChar(s[k])
  }

  /** `\b` at position `k` (between `s[k-1]` and `s[k]`). */
  predicate Boundary(s: string, k: int) {
    WordAt(s, k - 1) != WordAt(s, k)
  }

  // ---------------------------------------------------------------------------
  // RegexUtils.regex: /^\/(.*)\/([^\/]*)$/
  // ---------------------------------------------------------------------------

  /** The two capture groups of a `/source/flags` literal. */
  datatype RegexParts = RegexParts(source: string, flags: string)

  /** The pattern matches the whole of `input` with these two groups. */
  ghost predicate SplitsAs(input: string, p: RegexParts) {
    && input == "/" + p.source + "/" + p.flags
    && NoLineTerminator(p.source)
    && '/' !in p.flags
  }

  /** The index of the last `/` in `s`, if any. */
  function LastSlash(s: string): (r: Option<nat>)
    ensures r.Some? ==> r.value < |s| && s[r.value] == '/' && '/' !in s[r.value + 1..]
    ensures r.None? ==> '/' !in s
  {
    if |s| == 0 then None
    else if s[|s| - 1] == '/' then Some(|s| - 1)
    else
      var r := LastSlash(s[..|s| - 1]);
      assert r.Some? ==> s[r.value + 1..] == s[..|s| - 1][r.value + 1..] + [s[|s| - 1]];
      assert s == s[..|s| - 1] + [s[|s| - 1]];
      r
  }

  /** In a `/source/flags` literal the separating slash is the last one. */
  lemma SeparatorIsLastSlash(input: string, p: RegexParts)
    requires SplitsAs(input, p)
    ensures LastSlash(input) == Some(|p.source| + 1)
  {
    var j := |p.source| + 1;
    assert input[j] == '/';
    assert input[j + 1..] == p.flags;
    assert '/' in input;
    LastSlashUnique(input, j, LastSlash(input).value);
  }

  /** Two slashes with no slash after either are the same slash. */
  lemma LastSlashUnique(s: string, j: nat, k: nat)
    requires j < |s| && k < |s| && s[j] == '/' && s[k] == '/'
    requires '/' !in s[j + 1..] && '/' !in s[k + 1..]
    ensures j == k
  {
    assert forall t :: j < t < |s| ==> s[t] == s[j + 1..][t - j - 1] != '/';
    assert forall t :: k < t < |s| ==> s[t] == s[k + 1..][t - k - 1] != '/';
  }

  /**
   * The split performed by `RegexUtils.regex` before it builds the RegExp.
   * `None` is the `null` it returns when the input does not match. A match
   * exists exactly when the input has the shape `/source/flags`, and then the
   * groups are unique: `flags` cannot hold a `/`, so the separating slash is
   * the last one.
   */
  function SplitRegex(input: string): (r: Option<RegexParts>)
    ensures r.Some? ==> SplitsAs(input, r.value)
  {
    if |input| == 0 || input[0] != '/' then None
    else match LastSlash(input)
      case None => None
      case Some(j) =>
        if j == 0 || !NoLineTerminator(input[1..j]) then None
        else
          assert input == "/" + input[1..j] + "/" + input[j + 1..];
          Some(RegexParts(input[1..j], input[j + 1..]))
  }

  /**
   * The converse: every input of the shape `/source/flags` (no line terminator
   * in `source`, no `/` in `flags`) is split, and into exactly those parts.
   */
  lemma SplitRegexComplete(input: string, p: RegexParts)
    requires SplitsAs(input, p)
    ensures SplitRegex(input) == Some(p)
  {
    SeparatorIsLastSlash(input, p);
    assert input[1..|p.source| + 1] == p.source;
    assert input[|p.source| + 2..] == p.flags;
  }

  // ---------------------------------------------------------------------------
  // RegexUtils.discordId: /\b\d{17,20}\b/
  // ---------------------------------------------------------------------------

  /** The pattern matches `s[i..i + n]`. */
  ghost predicate IdAt(s: string, i: nat, n: nat) {
    && 17 <= n <= 20
    && i + n <= |s|
    && Boundary(s, i)
    && AllDigits(s[i..i + n])
    && Boundary(s, i + n)
  }

  /** The match the engine reports: the one with the leftmost start. */
  ghost predicate LeftmostId(s: string, i: nat, n: nat) {
    IdAt(s, i, n) && forall j: nat, m: nat :: j < i ==> !IdAt(s, j, m)
  }

  /** The number of consecutive digits starting at `i`. */
  function DigitRun(s: string, i: nat): (n: nat)
    requires i <= |s|
    ensures i + n <= |s| && AllDigits(s[i..i + n])
    ensures i + n == |s| || !IsDigit(s[i + n])
    decreases |s| - i
  {
    if i < |s| && IsDigit(s[i]) then
      var n := 1 + DigitRun(s, i + 1);
      assert s[i..i + n] == [s[i]] + s[i + 1..i + n];
      n
    else 0
  }

  /** What the engine checks at start `i`: `\b`, the whole digit run, `\b`. */
  predicate IdStartsAt(s: string, i: nat)
    requires i <= |s|
  {
    var n := DigitRun(s, i);
    Boundary(s, i) && 17 <= n <= 20 && Boundary(s, i + n)
  }

  /**
   * A match always covers a whole run of digits (its end is a `\b` right after
   * a digit), so backtracking inside `\d{17,20}` never helps and the match at
   * a start is the digit run there or nothing.
   */
  lemma IdAtIsWholeRun(s: string, i: nat, n: nat)
    requires i <= |s|
    ensures IdAt(s, i, n) <==> IdStartsAt(s, i) && n == DigitRun(s, i)
  {
    var r := DigitRun(s, i);
    if IdAt(s, i, n) {
      DigitRunCovers(s, i, n);
      IdEndsRun(s, i, n);
      forall j | i <= j < i + r
        ensures IsDigit(s[j])
      {
        assert s[i..i + r][j - i] == s[j];
      }
    }
  }

  /** The `\b` closing a match follows a digit, so the next character is not a digit. */
  lemma IdEndsRun(s: string, i: nat, n: nat)
    requires IdAt(s, i, n)
    ensures i + n == |s| || !IsDigit(s[i + n])
  {
    assert IsDigit(s[i..i + n][n - 1]) && s[i..i + n][n - 1] == s[i + n - 1];
    assert WordAt(s, i + n - 1);
  }

  /** A block of digits at `i` lies inside the digit run there. */
  lemma {:induction false} DigitRunCovers(s: string, i: nat, n: nat)
    requires i + n <= |s| && AllDigits(s[i..i + n])
    ensures n <= DigitRun(s, i)
    decreases n
  {
    if n > 0 {
      assert IsDigit(s[i..i + n][0]) && s[i..i + n][0] == s[i];
      assert s[i + 1..i + n] == s[i..i + n][1..];
      DigitRunCovers(s, i + 1, n - 1);
    }
  }

  /** Scans the starts `i, i + 1, …` for the first one at which the pattern matches. */
  function FindId(s: string, i: nat): (r: Option<nat>)
    requires i <= |s|
    ensures r.Some? ==> i <= r.value <= |s| && IdStartsAt(s, r.value)
    ensures forall j: nat :: i <= j <= |s| && (r.None? || j < r.value) ==> !IdStartsAt(s, j)
    decreases |s| - i
  {
    if IdStartsAt(s, i) then Some(i)
    else if i == |s| then None
    else FindId(s, i + 1)
  }

  /**
   * `RegexUtils.discordId`: the first whole-word run of 17 to 20 ASCII digits,
   * or `None` (JavaScript's `undefined`) when there is none. A run of 21 or
   * more digits, or one glued to a letter or `_`, contributes nothing.
   */
  function DiscordId(input: string): (r: Option<string>)
    ensures r.Some? ==> 17 <= |r.value| <= 20 && AllDigits(r.value)
    ensures r.Some? ==> exists i: nat, n: nat :: LeftmostId(input, i, n) && r.value == input[i..i + n]
    ensures r.None? <==> forall i: nat, n: nat :: !IdAt(input, i, n)
  {
    match FindId(input, 0)
    case None =>
      NoStartNoId(input);
      None
    case Some(i) =>
      var n := DigitRun(input, i);
      FoundStartIsLeftmost(input, i);
      Some(input[i..i + n])
  }

  /** When no start passes the engine's check, the pattern matches nowhere. */
  lemma NoStartNoId(s: string)
    requires FindId(s, 0).None?
    ensures forall i: nat, n: nat :: !IdAt(s, i, n)
  {
    forall i: nat, n: nat | IdAt(s, i, n) ensures false {
      IdAtIsWholeRun(s, i, n);
    }
  }

  /** The first start that passes the engine's check holds the leftmost match. */
  lemma FoundStartIsLeftmost(s: string, i: nat)
    requires FindId(s, 0) == Some(i)
    ensures i <= |s| && LeftmostId(s, i, DigitRun(s, i))
  {
    IdAtIsWholeRun(s, i, DigitRun(s, i));
    forall j: nat, m: nat | j < i && IdAt(s, j, m) ensures false {
      IdAtIsWholeRun(s, j, m);
    }
  }

  /** There is one leftmost match, so the result of `DiscordId` is well defined. */
  lemma LeftmostIdUnique(s: string, i: nat, n: nat, j: nat, m: nat)
    requires LeftmostId(s, i, n) && LeftmostId(s, j, m)
    ensures i == j && n == m
  {
    IdAtIsWholeRun(s, i, n);
    IdAtIsWholeRun(s, j, m);
  }

  // ---------------------------------------------------------------------------
  // RegexUtils.tag: /\b(.+)#([\d]{4})\b/
  // ---------------------------------------------------------------------------

  /** The parsed tag: the whole match and its two groups. */
  datatype Tag = Tag(tag: string, username: string, discriminator: string)

  /** The pattern matches `s[i..e + 5]` with `(.+)` covering `s[i..e]`. */
  ghost predicate TagAt(s: string, i: nat, e: nat) {
    && i < e
    && e + 5 <= |s|
    && Boundary(s, i)
    && NoLineTerminator(s[i..e])
    && s[e] == '#'
    && AllDigits(s[e + 1..e + 5])
    && Boundary(s, e + 5)
  }

  /**
   * The match the engine reports: leftmost start and, at that start, the
   * longest `(.+)` (the greedy group gives back characters only as needed).
   */
  ghost predicate LeftmostGreedyTag(s: string, i: nat, e: nat) {
    && TagAt(s, i, e)
    && (forall j: nat, f: nat :: j < i ==> !TagAt(s, j, f))
    && (forall f: nat :: TagAt(s, i, f) ==> f <= e)
  }

  /** How far `.` can reach from `i`: the characters up to the next line terminator. */
  function DotRun(s: string, i: nat): (n: nat)
    requires i <= |s|
    ensures i + n <= |s| && NoLineTerminator(s[i..i + n])
    ensures i + n == |s| || IsLineTerminator(s[i + n])
    decreases |s| - i
  {
    if i < |s| && !IsLineTerminator(s[i]) then
      var n := 1 + DotRun(s, i + 1);
      assert s[i..i + n] == [s[i]] + s[i + 1..i + n];
      n
    else 0
  }

  /** `#([\d]{4})\b` matches from position `e`. */
  predicate TagTailAt(s: string, e: nat) {
    e + 5 <= |s| && s[e] == '#' && AllDigits(s[e + 1..e + 5]) && Boundary(s, e + 5)
  }

  /** `TagAt` in terms of the reach of `.`: the group may end anywhere up to it. */
  lemma TagAtByReach(s: string, i: nat, e: nat)
    requires i <= |s|
    ensures TagAt(s, i, e) <==> Boundary(s, i) && i < e <= i + DotRun(s, i) && TagTailAt(s, e)
  {
    var d := DotRun(s, i);
    if TagAt(s, i, e) {
      forall j | i <= j < e
        ensures !IsLineTerminator(s[j])
      {
        assert s[i..e][j - i] == s[j];
      }
    }
    if i < e <= i + d {
      assert s[i..e] == s[i..i + d][..e - i];
    }
  }

  /** The backtracking of `(.+)`: the largest end in `(i, e]` after which the rest matches. */
  function LastTagEnd(s: string, i: nat, e: nat): (r: Option<nat>)
    ensures r.Some? ==> i < r.value <= e && TagTailAt(s, r.value)
    ensures forall f: nat :: i < f <= e && (r.None? || r.value < f) ==> !TagTailAt(s, f)
    decreases e
  {
    if e <= i then None
    else if TagTailAt(s, e) then Some(e)
    else LastTagEnd(s, i, e - 1)
  }

  /** What the engine finds at start `i`: `\b`, then the longest group that lets the rest match. */
  function TagEndFrom(s: string, i: nat): (r: Option<nat>)
    requires i <= |s|
    ensures r.Some? ==> TagAt(s, i, r.value) && forall f: nat :: TagAt(s, i, f) ==> f <= r.value
    ensures r.None? ==> forall f: nat :: !TagAt(s, i, f)
  {
    var r := if Boundary(s, i) then LastTagEnd(s, i, i + DotRun(s, i)) else None;
    assert forall f: nat :: TagAt(s, i, f) <==> Boundary(s, i) && i < f <= i + DotRun(s, i) && TagTailAt(s, f) by {
      forall f: nat { TagAtByReach(s, i, f); }
    }
    r
  }

  /** Scans the starts `i, i + 1, …` for the first one at which the pattern matches. */
  function FindTag(s: string, i: nat): (r: Option<nat>)
    requires i <= |s|
    ensures r.Some? ==> i <= r.value <= |s| && TagEndFrom(s, r.value).Some?
    ensures forall j: nat :: i <= j <= |s| && (r.None? || j < r.value) ==> TagEndFrom(s, j).None?
    decreases |s| - i
  {
    if TagEndFrom(s, i).Some? then Some(i)
    else if i == |s| then None
    else FindTag(s, i + 1)
  }

  /** The start found by the scan, with the end chosen there, is the engine's match. */
  lemma FindTagIsLeftmost(s: string)
    ensures FindTag(s, 0).Some? ==>
              var i := FindTag(s, 0).value; LeftmostGreedyTag(s, i, TagEndFrom(s, i).value)
    ensures FindTag(s, 0).None? ==> forall i: nat, e: nat :: !TagAt(s, i, e)
  {
    forall i: nat, e: nat | TagAt(s, i, e) ensures i <= |s| && TagEndFrom(s, i).Some? { }
  }

  /**
   * `RegexUtils.tag`: `None` is the `null` returned when nothing matches;
   * otherwise the match and its groups, which the engine picks leftmost-first
   * and, at that start, with the longest username.
   */
  function ParseTag(input: string): (r: Option<Tag>)
    ensures r.Some? ==> r.value.tag == r.value.username + "#" + r.value.discriminator
    ensures r.Some? ==> 0 < |r.value.username| && NoLineTerminator(r.value.username)
    ensures r.Some? ==> |r.value.discriminator| == 4 && AllDigits(r.value.discriminator)
    ensures r.Some? ==> exists i: nat, e: nat :: LeftmostGreedyTag(input, i, e)
                                               && r.value.username == input[i..e]
                                               && r.value.tag == input[i..e + 5]
    ensures r.None? <==> forall i: nat, e: nat :: !TagAt(input, i, e)
  {
    var found := FindTag(input, 0);
    FindTagIsLeftmost(input);
    match found
    case None => None
    case Some(i) =>
      var e := TagEndFrom(input, i).value;
      TagSplits(input, i, e);
      assert LeftmostGreedyTag(input, i, e);
      Some(Tag(input[i..e + 5], input[i..e], input[e + 1..e + 5]))
  }

  /** A tag match is the group, a `#` and the four digits, in that order. */
  lemma TagSplits(s: string, i: nat, e: nat)
    requires TagAt(s, i, e)
    ensures s[i..e + 5] == s[i..e] + "#" + s[e + 1..e + 5]
  {
    assert s[i..e + 5] == s[i..e] + s[e..e + 1] + s[e + 1..e + 5];
  }
}

module RegexExamples {
  import opened Wrappers
  import opened RegexUtils

  /** `/ab+c/gi` splits into `ab+c` and `gi`; the last slash separates, so `/a/b/` has empty flags. */
  lemma SplitRegexExamples()
    ensures SplitRegex("/ab+c/gi") == Some(RegexParts("ab+c", "gi"))
    ensures SplitRegex("/a/b/") == Some(RegexParts("a/b", ""))
  {
    SplitRegexComplete("/ab+c/gi", RegexParts("ab+c", "gi"));
    SplitRegexComplete("/a/b/", RegexParts("a/b", ""));
  }

  /** A line terminator in the source makes the input fail to match. */
  lemma SplitRegexRejectsLineBreak()
    ensures SplitRegex("/a\nb/") == None
  {
    var s := "/a\nb/";
    assert LastSlash(s) == Some(4);
    assert s[1..4][1] == '\n';
  }

  /** The greedy group: in `a#1234#5678` the username is `a#1234`. */
  lemma ParseTagGreedy()
    ensures ParseTag("a#1234#5678") == Some(Tag("a#1234#5678", "a#1234", "5678"))
  {
    var s := "a#1234#5678";
    GreedyTagFound(s);
  }

  /** In `a#1234#5678` the scan stops at the first start, whose group runs to the second `#`. */
  lemma GreedyTagFound(s: string)
    requires s == "a#1234#5678"
    ensures FindTag(s, 0) == Some(0) && TagEndFrom(s, 0) == Some(6)
    ensures s[0..11] == s && s[0..6] == "a#1234" && s[7..11] == "5678"
  {
    GreedyTagMatch(s);
    var r := TagEndFrom(s, 0);
    assert r.Some? && 6 <= r.value;
    assert TagAt(s, 0, r.value) && r.value + 5 <= 11;
  }

  /** In `a#1234#5678` the group can run to the second `#`. */
  lemma GreedyTagMatch(s: string)
    requires s == "a#1234#5678"
    ensures TagAt(s, 0, 6)
  {
    assert Boundary(s, 0) && Boundary(s, 11);
    assert NoLineTerminator(s[0..6]);
    assert AllDigits(s[7..11]);
  }

  /** Four digits must be followed by a non-word character: `a#12345` has no tag. */
  lemma ParseTagNeedsBoundary()
    ensures ParseTag("a#12345") == None
  {
    var s := "a#12345";
    forall i: nat, e: nat ensures !TagAt(s, i, e) { }
  }

  /** A mention `<@id>` of a 17 to 20 digit id yields that id. */
  lemma DiscordIdInMention(id: string)
    requires 17 <= |id| <= 20 && AllDigits(id)
    ensures DiscordId("<@" + id + ">") == Some(id)
  {
    var s := "<@" + id + ">";
    var n := |id|;
    assert s[0] == '<' && s[1] == '@' && s[n + 2] == '>';
    assert s[2..n + 2] == id;
    assert IsDigit(id[0]) && s[2] == id[0];
    assert IsDigit(id[n - 1]) && s[n + 1] == id[n - 1];
    assert IdAt(s, 2, n);
    IdAtIsWholeRun(s, 2, n);
    assert !IdStartsAt(s, 0) && !IdStartsAt(s, 1);
    assert FindId(s, 0) == Some(2);
  }

  /** A run of 21 digits is too long to be an id. */
  lemma DiscordIdRejectsLongRun()
    ensures DiscordId("123456789012345678901") == None
  {
    var s := "123456789012345678901";
    assert AllDigits(s);
    forall i: nat, n: nat ensures !IdAt(s, i, n) {
      if 0 < i < |s| {
        assert WordAt(s, i - 1) && WordAt(s, i);
      }
      if 0 < n < |s| {
        assert WordAt(s, n - 1) && WordAt(s, n);
      }
    }
  }

  /** A digit run glued to a letter is not a whole word. */
  lemma DiscordIdRejectsGluedRun()
    ensures DiscordId("x123456789012345678") == None
  {
    GluedRunHasNoId("x123456789012345678");
  }

  lemma GluedRunHasNoId(s: string)
    requires s == "x123456789012345678"
    ensures DiscordId(s) == None
  {
    assert forall k :: 0 <= k < |s| ==> IsWordChar(s[k]);
    assert !IsDigit(s[0]);
    forall i: nat, n: nat ensures !IdAt(s, i, n) {
      if i == 0 {
        if 0 < n <= |s| {
          assert s[0..n][0] == s[0];
        }
      } else if i < |s| {
        assert WordAt(s, i - 1) && WordAt(s, i);
      }
    }
  }
}
