/**
 * The pieces of Go's `strings` and `path/filepath` packages that the plugin's
 * logic depends on: suffix and substring tests, joining with a separator, and
 * splitting a path list (filepath.SplitList on a Unix host, separator ':').
 */
module Strings {

  /** strings.HasSuffix. */
  predicate HasSuffix(s: string, suffix: string) {
    |suffix| <= |s| && s[|s| - |suffix|..] == suffix
  }

  /** strings.Contains: `sub` occurs somewhere in `s`. */
  predicate Contains(s: string, sub: string)
    decreases |s|
  {
    |sub| <= |s| && (s[..|sub|] == sub || Contains(s[1..], sub))
  }

  /** An occurrence of `sub` at position `i` makes Contains hold. */
  lemma {:induction false} ContainsAt(s: string, sub: string, i: nat)
    requires i + |sub| <= |s| && s[i..i + |sub|] == sub
    ensures Contains(s, sub)
    decreases i
  {
    if i > 0 {
      assert s[1..][i - 1..i - 1 + |sub|] == s[i..i + |sub|];
      ContainsAt(s[1..], sub, i - 1);
    } else {
      assert s[..|sub|] == s[0..|sub|];
    }
  }

  /** Contains holds only because of an actual occurrence, returned as `i`. */
  lemma {:induction false} ContainsWitness(s: string, sub: string) returns (i: nat)
    requires Contains(s, sub)
    ensures i + |sub| <= |s| && s[i..i + |sub|] == sub
    decreases |s|
  {
    if s[..|sub|] == sub {
      i := 0;
    } else {
      var j := ContainsWitness(s[1..], sub);
      assert s[1..][j..j + |sub|] == s[j + 1..j + 1 + |sub|];
      i := j + 1;
    }
  }

  /** strings.Join. */
  function Join(parts: seq<string>, sep: string): string
    decreases |parts|
  {
    if |parts| == 0 then ""
    else if |parts| == 1 then parts[0]
    else parts[0] + sep + Join(parts[1..], sep)
  }

  /** strings.Split with a one-character separator: the maximal separator-free pieces, in order. */
  function SplitOn(s: string, sep: char): (pieces: seq<string>)
    ensures |pieces| >= 1
    ensures forall k :: 0 <= k < |pieces| ==> sep !in pieces[k]
    decreases |s|
  {
    if |s| == 0 then [""]
    else
      var rest := SplitOn(s[1..], sep);
      if s[0] == sep then [""] + rest
      else [[s[0]] + rest[0]] + rest[1..]
  }

  /** Joining the pieces of a split with the same separator gives the original string back. */
  lemma {:induction false} SplitOnJoin(s: string, sep: char)
    ensures Join(SplitOn(s, sep), [sep]) == s
    decreases |s|
  {
    if |s| > 0 {
      var rest := SplitOn(s[1..], sep);
      SplitOnJoin(s[1..], sep);
      if s[0] == sep {
        assert ([""] + rest)[1..] == rest;
      } else {
        var pieces := [[s[0]] + rest[0]] + rest[1..];
        if |rest| > 1 {
          assert pieces[1..] == rest[1..];
          assert Join(rest, [sep]) == rest[0] + [sep] + Join(rest[1..], [sep]);
        }
      }
    }
  }

  /** filepath.SplitList on a Unix host: the empty string is the empty list, anything else splits on ':'. */
  function SplitList(path: string): (paths: seq<string>)
    ensures path != "" ==> |paths| >= 1 && Join(paths, ":") == path
    ensures forall k :: 0 <= k < |paths| ==> ':' !in paths[k]
    ensures path == "" ==> paths == []
  {
    if path == "" then []
    else
      SplitOnJoin(path, ':');
      SplitOn(path, ':')
  }
}
