/**
 * The editor's recognisers for user input: a game URL, from which the
 * BoardGameGeek id is read, and a yes/no answer in the manner of the `yn`
 * package.
 */
module Matchers {
  import opened Wrappers
  import opened Js
  import opened CliUtils

  // ---------------------------------------------------------------------------
  // matchUrl

  const BggPrefix: string := "https://boardgamegeek.com/boardgame/"
  const BggWwwPrefix: string := "https://www.boardgamegeek.com/boardgame/"

  /**
   * The site's own game URL as the pattern is written: its two dots are not
   * escaped, so each stands for any character but a line terminator.
   */
  const SitePattern: string := "https://josh-games.vercel.app/game/"

  predicate StartsWith(s: string, prefix: string) {
    |prefix| <= |s| && s[..|prefix|] == prefix
  }

  /** `s` begins with `pattern`, where a '.' of the pattern matches any character but a line terminator. */
  predicate MatchesPattern(s: string, pattern: string) {
    && |pattern| <= |s|
    && forall i :: 0 <= i < |pattern| ==>
         if pattern[i] == '.' then !IsLineTerminator(s[i]) else s[i] == pattern[i]
  }

  /** `(\d+)` can match at `n`: a digit stands there. */
  predicate DigitAt(s: string, n: nat) {
    n < |s| && IsDigit(s[n])
  }

  /** What the greedy `(\d+)` captures from `n` on. */
  function Capture(s: string, n: nat): (ds: string)
    requires DigitAt(s, n)
    ensures |ds| > 0 && n + |ds| <= |s| && AllDigits(ds) && ds == s[n..n + |ds|]
    ensures n + |ds| == |s| || !IsDigit(s[n + |ds|])
  {
    s[n..][..DigitPrefixLength(s[n..])]
  }

  /** The first pattern, `^https://(?:www\.)?boardgamegeek\.com/boardgame/(\d+)`: where its digits start. */
  function BggIdStart(url: string): (r: Option<nat>)
    ensures r.Some? ==> DigitAt(url, r.value)
    ensures r.Some? <==>
              || (StartsWith(url, BggWwwPrefix) && DigitAt(url, |BggWwwPrefix|))
              || (StartsWith(url, BggPrefix) && DigitAt(url, |BggPrefix|))
  {
    if StartsWith(url, BggWwwPrefix) && DigitAt(url, |BggWwwPrefix|) then Some(|BggWwwPrefix|)
    else if StartsWith(url, BggPrefix) && DigitAt(url, |BggPrefix|) then Some(|BggPrefix|)
    else None
  }

  /** The second pattern, `^https://josh-games.vercel.app/game/(\d+)`: where its digits start. */
  function SiteIdStart(url: string): (r: Option<nat>)
    ensures r.Some? <==> MatchesPattern(url, SitePattern) && DigitAt(url, |SitePattern|)
    ensures r.Some? ==> r.value == |SitePattern|
  {
    if MatchesPattern(url, SitePattern) && DigitAt(url, |SitePattern|) then Some(|SitePattern|) else None
  }

  /**
   * `matchUrl`: the id after a BoardGameGeek game URL, else the id after a
   * game URL of the site, else nothing; the id is the whole run of digits
   * there, read by `asInt`.
   */
  function MatchUrl(url: string): (r: Option<int>)
    ensures BggIdStart(url).Some? ==> r == Some(DigitsValue(Capture(url, BggIdStart(url).value)))
    ensures BggIdStart(url).None? && SiteIdStart(url).Some? ==> r == Some(DigitsValue(Capture(url, |SitePattern|)))
    ensures r.Some? <==> BggIdStart(url).Some? || SiteIdStart(url).Some?
  {
    var start := if BggIdStart(url).Some? then BggIdStart(url) else SiteIdStart(url);
    match start
    case None => None
    case Some(n) =>
      ParseIntOfDigits(Capture(url, n));
      AsInt(Capture(url, n))
  }

  /** After a prefix, the digits of an id followed by a non-digit are captured as that id. */
  lemma ReadsIdAfter(prefix: string, id: nat, rest: string)
    requires rest == [] || !IsDigit(rest[0])
    ensures var url := prefix + NatToString(id) + rest;
      && StartsWith(url, prefix)
      && DigitAt(url, |prefix|)
      && DigitsValue(Capture(url, |prefix|)) == id
  {
    var ds := NatToString(id);
    var url := prefix + ds + rest;
    assert url[..|prefix|] == prefix;
    assert url[|prefix|..] == ds + rest;
    assert DigitAt(url, |prefix|) by { assert url[|prefix|] == ds[0]; }
    DigitPrefixOfDigitsThen(ds, rest);
    assert (ds + rest)[..|ds|] == ds;
  }

  lemma {:induction false} DigitPrefixOfDigitsThen(ds: string, rest: string)
    requires AllDigits(ds) && (rest == [] || !IsDigit(rest[0]))
    ensures DigitPrefixLength(ds + rest) == |ds|
    decreases |ds|
  {
    if ds == [] {
      assert ds + rest == rest;
    } else {
      assert (ds + rest)[1..] == ds[1..] + rest;
      DigitPrefixOfDigitsThen(ds[1..], rest);
    }
  }

  lemma StartsWithAppend(prefix: string, x: string)
    ensures StartsWith(prefix + x, prefix)
  {
    assert (prefix + x)[..|prefix|] == prefix;
  }

  lemma DiffersAt(s: string, prefix: string, k: nat)
    requires k < |s| && k < |prefix| && s[k] != prefix[k]
    ensures !StartsWith(s, prefix)
  {
    if |prefix| <= |s| {
      assert s[..|prefix|][k] == s[k];
    }
  }

  lemma StartsWithTransitive(s: string, p: string, q: string)
    requires StartsWith(s, p) && StartsWith(p, q)
    ensures StartsWith(s, q)
  {
    assert s[..|q|] == s[..|p|][..|q|];
  }

  /** A text matches the pattern its own prefix is made of. */
  lemma PatternOfItself(pattern: string, x: string, y: string)
    ensures MatchesPattern(pattern + x + y, pattern)
  {
    forall i | 0 <= i < |pattern|
      ensures if pattern[i] == '.' then !IsLineTerminator((pattern + x + y)[i]) else (pattern + x + y)[i] == pattern[i]
    {
      assert (pattern + x + y)[i] == pattern[i];
    }
  }

  /** A match of a pattern starts with each dot-free prefix of the pattern. */
  lemma PatternPrefix(s: string, pattern: string, q: string)
    requires MatchesPattern(s, pattern) && StartsWith(pattern, q)
    requires forall k :: 0 <= k < |q| ==> q[k] != '.'
    ensures StartsWith(s, q)
  {
    forall k | 0 <= k < |q| ensures s[..|q|][k] == q[k] {
      assert pattern[k] == q[k];
    }
  }

  /** A BoardGameGeek game URL gives back its id whatever follows the digits. */
  lemma MatchUrlBgg(id: nat, rest: string)
    requires rest == [] || !IsDigit(rest[0])
    ensures MatchUrl(BggPrefix + NatToString(id) + rest) == Some(id)
  {
    var url := BggPrefix + NatToString(id) + rest;
    ReadsIdAfter(BggPrefix, id, rest);
    assert url[8] == url[..|BggPrefix|][8] == 'b';
    DiffersAt(url, BggWwwPrefix, 8);
  }

  /** So does one with `www.`. */
  lemma MatchUrlBggWww(id: nat, rest: string)
    requires rest == [] || !IsDigit(rest[0])
    ensures MatchUrl(BggWwwPrefix + NatToString(id) + rest) == Some(id)
  {
    ReadsIdAfter(BggWwwPrefix, id, rest);
  }

  /** A game URL of the site gives back its id: no BoardGameGeek URL looks like one. */
  lemma MatchUrlSite(id: nat, rest: string)
    requires rest == [] || !IsDigit(rest[0])
    ensures MatchUrl(SitePattern + NatToString(id) + rest) == Some(id)
  {
    var url := SitePattern + NatToString(id) + rest;
    ReadsIdAfter(SitePattern, id, rest);
    PatternOfItself(SitePattern, NatToString(id), rest);
    assert url[8] == url[..|SitePattern|][8] == 'j';
    DiffersAt(url, BggWwwPrefix, 8);
    DiffersAt(url, BggPrefix, 8);
  }

  /** Anything that is not an https URL is no game URL: a plain-http link gives nothing. */
  lemma MatchUrlNeedsHttps(url: string)
    requires !StartsWith(url, "https://")
    ensures MatchUrl(url) == None
  {
    var scheme := "https://";
    assert StartsWith(BggPrefix, scheme) && StartsWith(BggWwwPrefix, scheme) && StartsWith(SitePattern, scheme);
    if StartsWith(url, BggPrefix) { StartsWithTransitive(url, BggPrefix, scheme); }
    if StartsWith(url, BggWwwPrefix) { StartsWithTransitive(url, BggWwwPrefix, scheme); }
    if MatchesPattern(url, SitePattern) { PatternPrefix(url, SitePattern, scheme); }
  }

  // ---------------------------------------------------------------------------
  // yn

  const YesWords: seq<string> := ["y", "yes", "true", "1", "on"]
  const NoWords: seq<string> := ["n", "no", "false", "0", "off"]

  /** `/^(?:w1|w2|...)$/i.test(value)`: the value is one of the words, ignoring case. */
  predicate IsOneOf(value: string, words: seq<string>) {
    exists i :: 0 <= i < |words| && EqualsIgnoringCase(value, words[i])
  }

  /**
   * `yn`: no value gives the default; otherwise the trimmed value read as a
   * yes word, a no word, or else the default.
   */
  function Yn(value: Option<string>, default: Option<bool>): (r: Option<bool>)
    ensures value.None? ==> r == default
    ensures value.Some? && IsOneOf(Trim(value.value), YesWords) ==> r == Some(true)
    ensures value.Some? && IsOneOf(Trim(value.value), NoWords) ==> r == Some(false)
    ensures value.Some? && !IsOneOf(Trim(value.value), YesWords) && !IsOneOf(Trim(value.value), NoWords) ==> r == default
  {
    match value
    case None => default
    case Some(v) =>
      var t := Trim(v);
      if IsOneOf(t, YesWords) then
        YesNoDisjoint(t);
        Some(true)
      else if IsOneOf(t, NoWords) then Some(false)
      else default
  }

  lemma ToLowerOfLower(s: string)
    requires forall k :: 0 <= k < |s| ==> !('A' <= s[k] <= 'Z')
    ensures ToLowerAsciiString(s) == s
  {
  }

  /** The answer words are written in lower case and no yes word is a no word. */
  lemma WordsFolded(i: nat, j: nat)
    requires i < |YesWords| && j < |NoWords|
    ensures ToLowerAsciiString(YesWords[i]) == YesWords[i]
    ensures ToLowerAsciiString(NoWords[j]) == NoWords[j]
    ensures YesWords[i] != NoWords[j]
  {
    ToLowerOfLower(YesWords[i]);
    ToLowerOfLower(NoWords[j]);
  }

  /** No text is both a yes word and a no word. */
  lemma YesNoDisjoint(value: string)
    ensures !(IsOneOf(value, YesWords) && IsOneOf(value, NoWords))
  {
    forall i, j | 0 <= i < |YesWords| && 0 <= j < |NoWords|
      ensures !(EqualsIgnoringCase(value, YesWords[i]) && EqualsIgnoringCase(value, NoWords[j]))
    {
      WordsFolded(i, j);
    }
  }

  lemma WordShape(word: string)
    requires word in YesWords || word in NoWords
    ensures |word| > 0 && !IsWhitespace(word[0]) && !IsWhitespace(word[|word| - 1])
  {
  }

  /** Each answer word in any case, with whitespace around it, reads as its truth value. */
  lemma YnWords(pre: string, word: string, post: string, default: Option<bool>)
    requires AllWhitespace(pre) && AllWhitespace(post)
    requires word in YesWords || word in NoWords
    ensures Yn(Some(pre + word + post), default) == Some(word in YesWords)
  {
    WordShape(word);
    TrimSurrounded(pre, word, post);
    if word in YesWords {
      var i :| 0 <= i < |YesWords| && YesWords[i] == word;
      assert EqualsIgnoringCase(word, YesWords[i]);
    } else {
      var j :| 0 <= j < |NoWords| && NoWords[j] == word;
      assert EqualsIgnoringCase(word, NoWords[j]);
      YesNoDisjoint(word);
    }
  }
}
