/**
 * Character and line helpers shared by the document formats of the scraper
 * and the two translators: ASCII digits, prefixes and suffixes, and
 * splitting a text into its first lines.
 */
module Text {
  import opened Wrappers

  /** An ASCII decimal digit. */
  predicate IsDigit(c: char) {
    '0' <= c <= '9'
  }

  predicate StartsWith(s: string, prefix: string) {
    |prefix| <= |s| && s[..|prefix|] == prefix
  }

  predicate EndsWith(s: string, suffix: string) {
    |suffix| <= |s| && s[|s| - |suffix|..] == suffix
  }

  /** What follows `prefix` in `s`, when `s` starts with it. */
  function After(s: string, prefix: string): (r: Option<string>)
    ensures r.Some? <==> StartsWith(s, prefix)
    ensures r.Some? ==> s == prefix + r.value
  {
    if StartsWith(s, prefix) then Some(s[|prefix|..]) else None
  }

  /** A prefix followed by a text gives that text back. */
  lemma {:induction false} AfterPrefix(prefix: string, s: string)
    ensures After(prefix + s, prefix) == Some(s)
  {
    assert (prefix + s)[..|prefix|] == prefix;
    assert (prefix + s)[|prefix|..] == s;
  }

  /** Index of the first line break of `s`, or `|s|` when there is none. */
  function NewlineIndex(s: string): (i: nat)
    ensures i <= |s|
    ensures forall k :: 0 <= k < i ==> s[k] != '\n'
    ensures i < |s| ==> s[i] == '\n'
  {
    if s == [] || s[0] == '\n' then 0 else 1 + NewlineIndex(s[1..])
  }

  /** The first line of `s` and the text after its line break; None when `s` holds no line break. */
  function TakeLine(s: string): (r: Option<(string, string)>)
    ensures r.None? <==> '\n' !in s
    ensures r.Some? ==> '\n' !in r.value.0 && s == r.value.0 + "\n" + r.value.1
  {
    var i := NewlineIndex(s);
    if i == |s| then None
    else
      assert s == s[..i] + "\n" + s[i + 1..];
      Some((s[..i], s[i + 1..]))
  }

  /** Splitting at the first line break undoes joining a line that holds none. */
  lemma {:induction false} TakeLineOf(line: string, rest: string)
    requires '\n' !in line
    ensures TakeLine(line + "\n" + rest) == Some((line, rest))
  {
    var s := line + "\n" + rest;
    var i := NewlineIndex(s);
    assert s[|line|] == '\n';
    assert s[..i] == line;
    assert s[i + 1..] == rest;
  }

  /** Each line followed by a line break. */
  function JoinLines(lines: seq<string>): string {
    if lines == [] then "" else lines[0] + "\n" + JoinLines(lines[1..])
  }

  lemma {:induction false} JoinLinesStep(lines: seq<string>, k: nat)
    requires k < |lines|
    ensures JoinLines(lines[k..]) == lines[k] + "\n" + JoinLines(lines[k + 1..])
  {
    assert lines[k..][1..] == lines[k + 1..];
  }

  predicate NoLineBreaks(lines: seq<string>) {
    forall k :: 0 <= k < |lines| ==> '\n' !in lines[k]
  }

  /** The first `k` lines of `s` and what follows them; None when `s` has fewer than `k` line breaks. */
  function TakeLines(s: string, k: nat): (r: Option<(seq<string>, string)>)
    ensures r.Some? ==> |r.value.0| == k && NoLineBreaks(r.value.0)
    ensures r.Some? ==> s == JoinLines(r.value.0) + r.value.1
  {
    if k == 0 then
      Some(([], s))
    else
      match TakeLine(s)
      case None => None
      case Some((line, rest)) =>
        match TakeLines(rest, k - 1)
        case None => None
        case Some((lines, tail)) =>
          assert ([line] + lines)[1..] == lines;
          Some(([line] + lines, tail))
  }

  /** Joining a non-empty list of lines and appending: the first line, its break, then the rest. */
  lemma {:induction false} JoinLinesCons(lines: seq<string>, rest: string)
    requires lines != []
    ensures JoinLines(lines) + rest == lines[0] + "\n" + (JoinLines(lines[1..]) + rest)
  {
  }

  /** Taking back as many lines as were joined recovers them and the text that followed. */
  lemma {:induction false} TakeLinesOf(lines: seq<string>, rest: string)
    requires NoLineBreaks(lines)
    ensures TakeLines(JoinLines(lines) + rest, |lines|) == Some((lines, rest))
  {
    if lines != [] {
      var tail := JoinLines(lines[1..]) + rest;
      JoinLinesCons(lines, rest);
      TakeLineOf(lines[0], tail);
      assert TakeLine(JoinLines(lines) + rest) == Some((lines[0], tail));
      assert NoLineBreaks(lines[1..]);
      TakeLinesOf(lines[1..], rest);
      assert [lines[0]] + lines[1..] == lines;
    } else {
      assert JoinLines(lines) + rest == rest;
    }
  }
}
