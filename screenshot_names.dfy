/**
 * Screenshot file names built by the screenshot `afterEach` hook of lib/mocha-hooks.js:
 * the sanitised test title, the suite name cut out of the full title, and the two
 * file-name shapes (one for failed tests, one for the "save all" policy).
 *
 * Strings are sequences of Dafny characters (Unicode scalar values); the source works on
 * UTF-16 code units, which agree with them on the Basic Multilingual Plane. The regular
 * expressions are modelled for titles without line terminators, where `.` matches every
 * character.
 */
module ScreenshotNames {

  /** The class `[a-z0-9]` under the `i` flag: ASCII letters and decimal digits. */
  predicate IsAlnum(c: char) {
    'a' <= c <= 'z' || 'A' <= c <= 'Z' || '0' <= c <= '9'
  }

  /** The characters a sanitised title may contain. */
  predicate IsFileSafe(c: char) {
    'a' <= c <= 'z' || '0' <= c <= '9' || c == '-'
  }

  function LowerChar(c: char): char {
    if 'A' <= c <= 'Z' then (c as int + 32) as char else c
  }

  function UpperChar(c: char): char {
    if 'a' <= c <= 'z' then (c as int - 32) as char else c
  }

  /** `s.replace(/[^a-z0-9]/gi, '-')`: every code unit that is not an ASCII letter or digit becomes a dash. */
  function DashNonAlnum(s: string): (r: string)
    ensures |r| == |s|
    ensures forall i :: 0 <= i < |s| && IsAlnum(s[i]) ==> r[i] == s[i]
    ensures forall i :: 0 <= i < |s| && !IsAlnum(s[i]) ==> r[i] == '-'
  {
    seq(|s|, i requires 0 <= i < |s| => if IsAlnum(s[i]) then s[i] else '-')
  }

  /** `s.toLowerCase()` on ASCII: upper-case letters become lower-case, nothing else moves. */
  function LowerCase(s: string): (r: string)
    ensures |r| == |s|
    ensures forall i :: 0 <= i < |r| ==> !('A' <= r[i] <= 'Z')
    ensures forall i :: 0 <= i < |s| && !('A' <= s[i] <= 'Z') ==> r[i] == s[i]
    ensures forall i :: 0 <= i < |s| && 'A' <= s[i] <= 'Z' ==> 'a' <= r[i] <= 'z' && r[i] as int - s[i] as int == 32
  {
    seq(|s|, i requires 0 <= i < |s| => LowerChar(s[i]))
  }

  /** `s.toUpperCase()` on ASCII: lower-case letters become upper-case, nothing else moves. */
  function UpperCase(s: string): (r: string)
    ensures |r| == |s|
    ensures forall i :: 0 <= i < |r| ==> !('a' <= r[i] <= 'z')
    ensures forall i :: 0 <= i < |s| && !('a' <= s[i] <= 'z') ==> r[i] == s[i]
    ensures forall i :: 0 <= i < |s| && 'a' <= s[i] <= 'z' ==> 'A' <= r[i] <= 'Z' && s[i] as int - r[i] as int == 32
  {
    seq(|s|, i requires 0 <= i < |s| => UpperChar(s[i]))
  }

  /**
   * The sanitised title (`shortTestFileName`): non-alphanumerics become dashes, then the
   * result is lower-cased. Each code unit maps to exactly one output code unit.
   */
  function Sanitise(title: string): (r: string)
    ensures |r| == |title|
    ensures forall i :: 0 <= i < |r| ==> IsFileSafe(r[i])
    ensures forall i :: 0 <= i < |title| && IsAlnum(title[i]) ==> r[i] == LowerChar(title[i])
    ensures forall i :: 0 <= i < |title| && !IsAlnum(title[i]) ==> r[i] == '-'
  {
    LowerCase(DashNonAlnum(title))
  }

  /**
   * `s.replace(/.*\)/gi, '')`: the greedy match runs from the start up to the last `)`,
   * so what is left is the part after the last `)` (all of `s` when it has none).
   */
  function AfterLastParen(s: string): (r: string)
    ensures |r| <= |s| && r == s[|s| - |r|..]
    ensures ')' !in r
    ensures |r| < |s| ==> s[|s| - |r| - 1] == ')'
  {
    if s == [] then []
    else if s[|s| - 1] == ')' then []
    else
      var init := s[..|s| - 1];
      var rest := AfterLastParen(init);
      var k := |init| - |rest|;
      assert rest == init[k..];
      assert s[k..] == init[k..] + [s[|s| - 1]];
      assert |rest| < |init| ==> s[k - 1] == init[k - 1] == ')';
      rest + [s[|s| - 1]]
  }

  /** `s.replace(/\@.*\/gi, '')`: everything from the first `@` to the end is dropped. */
  function BeforeFirstAt(s: string): (r: string)
    ensures |r| <= |s| && r == s[..|r|]
    ensures '@' !in r
    ensures |r| < |s| ==> s[|r|] == '@'
  {
    if s == [] then []
    else if s[0] == '@' then []
    else [s[0]] + BeforeFirstAt(s[1..])
  }

  /** The suite part of the name (`shortDescribeFileName`), derived from the test's full title. */
  function SuiteName(fullTitle: string): (r: string)
    ensures |r| <= |fullTitle|
    ensures forall i :: 0 <= i < |r| ==> IsFileSafe(r[i])
  {
    Sanitise(BeforeFirstAt(AfterLastParen(fullTitle)))
  }

  /** Five parts joined by dashes, the shape of both file-name templates. */
  function Dashed(a: string, b: string, c: string, d: string, e: string): (r: string)
    ensures |r| == |a| + |b| + |c| + |d| + |e| + 4
    ensures r[..|a|] == a && r[|a|] == '-'
    ensures r[|a| + 1..|a| + 1 + |b|] == b && r[|a| + 1 + |b|] == '-'
    ensures r[|a| + |b| + 2..|a| + |b| + 2 + |c|] == c && r[|a| + |b| + 2 + |c|] == '-'
    ensures r[|a| + |b| + |c| + 3..|a| + |b| + |c| + 3 + |d|] == d && r[|a| + |b| + |c| + 3 + |d|] == '-'
    ensures r[|r| - |e|..] == e
  {
    var ab := a + "-" + b;
    var abc := ab + "-" + c;
    var abcd := abc + "-" + d;
    var r := abcd + "-" + e;
    assert r[..|a|] == ab[..|a|];
    assert r[|a| + 1..|a| + 1 + |b|] == ab[|a| + 1..];
    assert r[|ab| + 1..|ab| + 1 + |c|] == abc[|ab| + 1..];
    assert r[|abc| + 1..|abc| + 1 + |d|] == abcd[|abc| + 1..];
    r
  }

  /** The name given to a failed test's screenshot, `FAILED-<locale>-<size>-<title>-<date>`:
      the word `FAILED` is the first of the five dash-joined parts. */
  function FailedFilename(locale: string, screenSize: string, title: string, date: string): (r: string)
    ensures |r| == 10 + |locale| + |screenSize| + |title| + |date|
  {
    Dashed("FAILED", UpperCase(locale), UpperCase(screenSize), Sanitise(title), date)
  }

  /** The name given to any other test's screenshot when every screenshot is saved; `suite`
      is the suite name already cut out of the full title (see `SuiteName`). */
  function SaveAllFilename(locale: string, screenSize: string, suite: string, title: string, date: string): (r: string)
    ensures |r| == 4 + |locale| + |screenSize| + |suite| + |date| + |title|
  {
    Dashed(UpperCase(locale), UpperCase(screenSize), suite, date, Sanitise(title))
  }

  // ---------------------------------------------------------------------------------------
  // Properties of the names
  // ---------------------------------------------------------------------------------------

  /** Sanitising twice changes nothing: a sanitised title is already a fixed point. */
  lemma SanitiseIdempotent(title: string)
    ensures Sanitise(Sanitise(title)) == Sanitise(title)
  {
    var once := Sanitise(title);
    var twice := Sanitise(once);
    forall i | 0 <= i < |once|
      ensures twice[i] == once[i]
    {
      assert IsFileSafe(once[i]);
    }
  }

  /**
   * Two titles sanitise to the same text exactly when they agree, position by position,
   * up to letter case on alphanumerics and up to which non-alphanumeric is used.
   */
  lemma SanitiseEqualIff(a: string, b: string)
    requires |a| == |b|
    ensures Sanitise(a) == Sanitise(b) <==>
      forall i :: 0 <= i < |a| ==>
        (IsAlnum(a[i]) <==> IsAlnum(b[i])) && (IsAlnum(a[i]) ==> LowerChar(a[i]) == LowerChar(b[i]))
  {
    var sa, sb := Sanitise(a), Sanitise(b);
    if sa == sb {
      forall i | 0 <= i < |a|
        ensures (IsAlnum(a[i]) <==> IsAlnum(b[i])) && (IsAlnum(a[i]) ==> LowerChar(a[i]) == LowerChar(b[i]))
      {
        assert sa[i] == sb[i];
      }
    } else {
      var i :| 0 <= i < |a| && sa[i] != sb[i];
      assert !((IsAlnum(a[i]) <==> IsAlnum(b[i])) && (IsAlnum(a[i]) ==> LowerChar(a[i]) == LowerChar(b[i])));
    }
  }

  /** The three properties of AfterLastParen determine its result. */
  lemma AfterLastParenUnique(s: string, r: string)
    requires |r| <= |s| && r == s[|s| - |r|..]
    requires ')' !in r
    requires |r| < |s| ==> s[|s| - |r| - 1] == ')'
    ensures r == AfterLastParen(s)
  {
  }

  /** The three properties of BeforeFirstAt determine its result. */
  lemma BeforeFirstAtUnique(s: string, r: string)
    requires |r| <= |s| && r == s[..|r|]
    requires '@' !in r
    requires |r| < |s| ==> s[|r|] == '@'
    ensures r == BeforeFirstAt(s)
  {
  }

  /** With `close` the position of the last `)` (or -1), the part after it is what remains. */
  lemma {:induction false} AfterLastParenAt(s: string, close: int)
    requires -1 <= close < |s|
    requires close >= 0 ==> s[close] == ')'
    requires forall k :: close < k < |s| ==> s[k] != ')'
    ensures AfterLastParen(s) == s[close + 1..]
    decreases |s|
  {
    if close < |s| - 1 {
      var init := s[..|s| - 1];
      assert forall k :: close < k < |init| ==> init[k] != ')';
      AfterLastParenAt(init, close);
      assert s[close + 1..] == init[close + 1..] + [s[|s| - 1]];
    }
  }

  /** With `at` the position of the first `@` (or the length), the part before it is what remains. */
  lemma {:induction false} BeforeFirstAtAt(s: string, at: int)
    requires 0 <= at <= |s|
    requires at < |s| ==> s[at] == '@'
    requires forall k :: 0 <= k < at ==> s[k] != '@'
    ensures BeforeFirstAt(s) == s[..at]
    decreases |s|
  {
    if at > 0 {
      var rest := s[1..];
      assert forall k :: 0 <= k < at - 1 ==> rest[k] != '@' by {
        forall k | 0 <= k < at - 1 ensures rest[k] != '@' { assert rest[k] == s[k + 1]; }
      }
      BeforeFirstAtAt(rest, at - 1);
      assert s[..at] == [s[0]] + rest[..at - 1];
    }
  }

  /**
   * The suite name is the sanitised slice strictly between the last `)` (position `close`,
   * or -1 when there is none) and the first `@` after it (position `at`, or the end).
   */
  lemma SuiteNameSlice(fullTitle: string, close: int, at: int)
    requires -1 <= close < |fullTitle|
    requires close >= 0 ==> fullTitle[close] == ')'
    requires forall k :: close < k < |fullTitle| ==> fullTitle[k] != ')'
    requires close < at <= |fullTitle|
    requires at < |fullTitle| ==> fullTitle[at] == '@'
    requires forall k :: close < k < at ==> fullTitle[k] != '@'
    ensures SuiteName(fullTitle) == Sanitise(fullTitle[close + 1..at])
  {
    AfterLastParenAt(fullTitle, close);
    var tail := fullTitle[close + 1..];
    var n := at - close - 1;
    forall k | 0 <= k < n ensures tail[k] != '@' {
      assert tail[k] == fullTitle[close + 1 + k];
    }
    BeforeFirstAtAt(tail, n);
    assert tail[..n] == fullTitle[close + 1..at];
  }

  /** A failed test's name is `FAILED-`, the upper-cased locale, `-`, the upper-cased screen
      size, `-`, the sanitised title, `-` and the timestamp, each at its offset. */
  lemma {:induction false} FailedFilenameShape(locale: string, screenSize: string, title: string, date: string)
    ensures var name := FailedFilename(locale, screenSize, title, date);
            var start := 7 + |locale| + 1 + |screenSize| + 1;
            |name| == start + |title| + 1 + |date| &&
            name[..7] == "FAILED-" &&
            name[7..7 + |locale|] == UpperCase(locale) &&
            name[7 + |locale|] == '-' &&
            name[8 + |locale|..start - 1] == UpperCase(screenSize) &&
            name[start - 1] == '-' &&
            name[start..start + |title|] == Sanitise(title) &&
            name[start + |title|] == '-' &&
            name[start + |title| + 1..] == date
  {
    var name := FailedFilename(locale, screenSize, title, date);
    assert name[..6] == "FAILED" && name[6] == '-';
    assert name[..7] == name[..6] + [name[6]];
  }

  /** A "save all" name is the upper-cased locale and screen size, the suite name, the
      timestamp and the sanitised title, joined by dashes, each at its offset. */
  lemma {:induction false} SaveAllFilenameShape(locale: string, screenSize: string, suite: string, title: string, date: string)
    ensures var name := SaveAllFilename(locale, screenSize, suite, title, date);
            var start := |locale| + 1 + |screenSize| + 1;
            |name| == start + |suite| + 1 + |date| + 1 + |title| &&
            name[..|locale|] == UpperCase(locale) &&
            name[|locale|] == '-' &&
            name[|locale| + 1..start - 1] == UpperCase(screenSize) &&
            name[start - 1] == '-' &&
            name[start..start + |suite|] == suite &&
            name[start + |suite|] == '-' &&
            name[start + |suite| + 1..start + |suite| + 1 + |date|] == date &&
            name[start + |suite| + 1 + |date|] == '-' &&
            name[|name| - |title|..] == Sanitise(title)
  {
    assert |UpperCase(locale)| == |locale| && |UpperCase(screenSize)| == |screenSize|;
  }

  /** The FAILED name spelled as the source's template string. */
  lemma FailedFilenameTemplate(locale: string, screenSize: string, title: string, date: string)
    ensures FailedFilename(locale, screenSize, title, date)
         == "FAILED-" + UpperCase(locale) + "-" + UpperCase(screenSize) + "-" + Sanitise(title) + "-" + date
  {
    assert "FAILED" + "-" == "FAILED-";
  }
}
