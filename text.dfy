/**
 * The string operations the bot relies on: `str.split()`, `str.lower()`,
 * the `in` test on strings, `str(n)` and the network location that
 * `urllib.parse.urlparse` extracts.
 */
module Text {
  import opened Collections

  /** The characters Python's `str.split()` treats as whitespace. */
  predicate IsSpace(c: char) {
    || c == ' ' || c == '\t' || c == '\n' || c == '\r'
    || c == '\U{B}' || c == '\U{C}'
    || ('\U{1C}' <= c <= '\U{1F}')
    || c == '\U{85}' || c == '\U{A0}' || c == '\U{1680}'
    || ('\U{2000}' <= c <= '\U{200A}')
    || c == '\U{2028}' || c == '\U{2029}' || c == '\U{202F}' || c == '\U{205F}' || c == '\U{3000}'
  }

  /** Length of the run of non-space characters that starts `s`. */
  function WordLength(s: string): (n: nat)
    ensures n <= |s|
    ensures forall i :: 0 <= i < n ==> !IsSpace(s[i])
    ensures n < |s| ==> IsSpace(s[n])
  {
    if s == [] || IsSpace(s[0]) then 0 else 1 + WordLength(s[1..])
  }

  /** `s.split()`: the maximal runs of non-space characters, in order. */
  function Split(s: string): (r: seq<string>)
    ensures forall i :: 0 <= i < |r| ==> |r[i]| > 0
    ensures forall i, j :: 0 <= i < |r| && 0 <= j < |r[i]| ==> !IsSpace(r[i][j])
    decreases |s|
  {
    if s == [] then []
    else if IsSpace(s[0]) then Split(s[1..])
    else
      var n := WordLength(s);
      [s[..n]] + Split(s[n..])
  }

  /** A non-empty string without whitespace: what `str.split()` yields. */
  predicate IsWord(w: string) {
    |w| > 0 && forall i :: 0 <= i < |w| ==> !IsSpace(w[i])
  }

  lemma {:induction false} WordLengthOfWord(w: string, t: string)
    requires forall i :: 0 <= i < |w| ==> !IsSpace(w[i])
    requires t == [] || IsSpace(t[0])
    ensures WordLength(w + t) == |w|
  {
    if w != [] {
      assert (w + t)[0] == w[0];
      assert (w + t)[1..] == w[1..] + t;
      WordLengthOfWord(w[1..], t);
    }
  }

  /** Joining words with single spaces and splitting again gives the words back. */
  lemma {:induction false} SplitJoin(words: seq<string>)
    requires forall i :: 0 <= i < |words| ==> IsWord(words[i])
    ensures Split(Join(words, " ")) == words
  {
    if |words| == 1 {
      var w := words[0];
      WordLengthOfWord(w, []);
      assert w + [] == w;
      assert w[|w|..] == [];
    } else if |words| > 1 {
      var w := words[0];
      assert words == [w] + words[1..];
      var rest := Join(words[1..], " ");
      var s := w + " " + rest;
      assert Join(words, " ") == s;
      assert Split(s) == [w] + Split(s[|w|..]) by {
        WordLengthOfWord(w, " " + rest);
        assert s == w + (" " + rest);
        assert s[0] == w[0];
        assert s[..|w|] == w;
      }
      assert Split(s[|w|..]) == Split(rest) by {
        assert s[|w|..] == " " + rest;
        assert (" " + rest)[1..] == rest;
      }
      SplitJoin(words[1..]);
    }
  }

  function LowerChar(c: char): char {
    if 'A' <= c <= 'Z' then (c as int + 32) as char else c
  }

  /** `s.lower()` on ASCII letters. */
  function Lower(s: string): (r: string)
    ensures |r| == |s|
    ensures forall i :: 0 <= i < |s| ==> r[i] == LowerChar(s[i])
  {
    seq(|s|, i requires 0 <= i < |s| => LowerChar(s[i]))
  }

  predicate IsPrefix(p: string, s: string) {
    |p| <= |s| && s[..|p|] == p
  }

  predicate IsSuffix(p: string, s: string) {
    |p| <= |s| && s[|s| - |p|..] == p
  }

  predicate OccursAt(haystack: string, needle: string, i: nat) {
    i + |needle| <= |haystack| && haystack[i..i + |needle|] == needle
  }

  /** Python's `needle in haystack` on strings. */
  function Contains(haystack: string, needle: string): (r: bool)
    ensures r <==> exists i: nat :: OccursAt(haystack, needle, i)
  {
    if IsPrefix(needle, haystack) then
      assert OccursAt(haystack, needle, 0);
      true
    else if haystack == [] then
      false
    else
      var r := Contains(haystack[1..], needle);
      assert forall i: nat :: OccursAt(haystack[1..], needle, i) <==> OccursAt(haystack, needle, i + 1);
      assert r ==> exists i: nat :: OccursAt(haystack, needle, i) by {
        if r {
          var i: nat :| OccursAt(haystack[1..], needle, i);
          assert OccursAt(haystack, needle, i + 1);
        }
      }
      assert (exists i: nat :: OccursAt(haystack, needle, i)) ==> r by {
        if exists i: nat :: OccursAt(haystack, needle, i) {
          var i: nat :| OccursAt(haystack, needle, i);
          assert i != 0;
          assert OccursAt(haystack[1..], needle, i - 1);
        }
      }
      r
  }

  /** `str(n)` for a natural number. */
  function NatToString(n: nat): (r: string)
    ensures |r| > 0
    ensures forall i :: 0 <= i < |r| ==> '0' <= r[i] <= '9'
  {
    var d := ['0' + (n % 10) as char];
    if n < 10 then d else NatToString(n / 10) + d
  }

  predicate IsSchemeChar(c: char) {
    ('a' <= c <= 'z') || ('A' <= c <= 'Z') || ('0' <= c <= '9') || c == '+' || c == '-' || c == '.'
  }

  function IndexOf(s: string, c: char): (r: nat)
    ensures r <= |s|
    ensures r < |s| ==> s[r] == c
    ensures forall i :: 0 <= i < r ==> s[i] != c
  {
    if s == [] || s[0] == c then 0 else 1 + IndexOf(s[1..], c)
  }

  /** Index of the first '/', '?' or '#', or |s| when there is none. */
  function NetlocEnd(s: string): (r: nat)
    ensures r <= |s|
    ensures r < |s| ==> s[r] in "/?#"
    ensures forall i :: 0 <= i < r ==> s[i] !in "/?#"
  {
    if s == [] || s[0] in "/?#" then 0 else 1 + NetlocEnd(s[1..])
  }

  /** What follows the scheme and its ':' when `url` starts with a scheme, else `url`. */
  function AfterScheme(url: string): string {
    var i := IndexOf(url, ':');
    if 0 < i < |url| && (('a' <= url[0] <= 'z') || ('A' <= url[0] <= 'Z'))
       && forall k :: 0 <= k < i ==> IsSchemeChar(url[k])
    then url[i + 1..]
    else url
  }

  /** `urlparse(url).netloc`: what follows `//`, up to the first '/', '?' or '#'; empty without `//`. */
  function Netloc(url: string): (r: string)
    ensures forall c :: c in r ==> c !in "/?#"
  {
    var rest := AfterScheme(url);
    if IsPrefix("//", rest) then
      var tail := rest[2..];
      tail[..NetlocEnd(tail)]
    else ""
  }

  lemma {:induction false} IndexOfAfter(p: string, c: char, t: string)
    requires c !in p
    ensures IndexOf(p + [c] + t, c) == |p|
  {
    if p != [] {
      assert (p + [c] + t)[1..] == p[1..] + [c] + t;
      IndexOfAfter(p[1..], c, t);
    }
  }

  lemma {:induction false} NetlocEndAfter(host: string, path: string)
    requires forall c :: c in host ==> c !in "/?#"
    requires path == [] || path[0] in "/?#"
    ensures NetlocEnd(host + path) == |host|
  {
    if host == [] {
      assert host + path == path;
    } else {
      assert host[0] in host;
      assert (host + path)[1..] == host[1..] + path;
      NetlocEndAfter(host[1..], path);
    }
  }

  /** After a well-formed scheme and its ':' comes the rest of the URL. */
  lemma AfterSchemeOf(scheme: string, rest: string)
    requires |scheme| > 0 && (('a' <= scheme[0] <= 'z') || ('A' <= scheme[0] <= 'Z'))
    requires forall i :: 0 <= i < |scheme| ==> IsSchemeChar(scheme[i])
    ensures AfterScheme(scheme + [':'] + rest) == rest
  {
    var url := scheme + [':'] + rest;
    assert ':' !in scheme;
    IndexOfAfter(scheme, ':', rest);
    assert url[|scheme| + 1..] == rest;
  }

  /**
   * The network location of `scheme://host/path...` is the host: whatever
   * follows the first '/', '?' or '#' after it is not part of it.
   */
  lemma NetlocOfUrl(scheme: string, host: string, path: string)
    requires |scheme| > 0 && (('a' <= scheme[0] <= 'z') || ('A' <= scheme[0] <= 'Z'))
    requires forall i :: 0 <= i < |scheme| ==> IsSchemeChar(scheme[i])
    requires forall c :: c in host ==> c !in "/?#"
    requires path == [] || path[0] in "/?#"
    ensures Netloc(scheme + "://" + host + path) == host
  {
    var url := scheme + "://" + host + path;
    var rest := "//" + host + path;
    var tail := host + path;
    assert AfterScheme(url) == rest by {
      assert url == scheme + [':'] + rest;
      AfterSchemeOf(scheme, rest);
    }
    assert IsPrefix("//", rest) && rest[2..] == tail;
    assert tail[..NetlocEnd(tail)] == host by {
      NetlocEndAfter(host, path);
      assert tail[..|host|] == host;
    }
  }
}
