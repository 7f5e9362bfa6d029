/** String helpers with the semantics of the JavaScript built-ins the source uses:
    `String.prototype.split` on a single character, `Array.prototype.join`,
    `replace(/\/$/, "")` and the case-insensitive regular expression `/rate limit/i`. */
module Strings {

  /** `s.split(sep)` for a one-character separator: the pieces between separators,
      empty pieces included; `"".split(",")` is `[""]`. */
  function Split(s: string, sep: char): (pieces: seq<string>)
    ensures |pieces| > 0
    ensures forall i :: 0 <= i < |pieces| ==> sep !in pieces[i]
    ensures Join(pieces, sep) == s
    decreases |s|
  {
    if |s| == 0 then [""]
    else if s[0] == sep then
      var rest := Split(s[1..], sep);
      assert Join([""] + rest, sep) == [sep] + Join(rest, sep);
      assert [sep] + s[1..] == s;
      [""] + rest
    else
      var rest := Split(s[1..], sep);
      JoinExtendFirst(s[0], rest, sep);
      assert [s[0]] + s[1..] == s;
      [[s[0]] + rest[0]] + rest[1..]
  }

  /** `pieces.join(sep)`: the pieces with one separator between neighbours. */
  function Join(pieces: seq<string>, sep: char): string
    decreases |pieces|
  {
    if |pieces| == 0 then ""
    else if |pieces| == 1 then pieces[0]
    else pieces[0] + [sep] + Join(pieces[1..], sep)
  }

  /** How `Join` unfolds on a non-empty list, whatever the length of the tail. */
  lemma JoinCons(first: string, rest: seq<string>, sep: char)
    ensures Join([first] + rest, sep) == if |rest| == 0 then first else first + [sep] + Join(rest, sep)
  {
    if |rest| > 0 {
      assert ([first] + rest)[1..] == rest;
    }
  }

  /** Prepending a character to the first piece prepends it to the joined string. */
  lemma JoinExtendFirst(c: char, pieces: seq<string>, sep: char)
    requires |pieces| > 0
    ensures Join([[c] + pieces[0]] + pieces[1..], sep) == [c] + Join(pieces, sep)
  {
    JoinCons([c] + pieces[0], pieces[1..], sep);
    JoinCons(pieces[0], pieces[1..], sep);
    assert pieces == [pieces[0]] + pieces[1..];
  }

  /** `Split` is also a left inverse of `Join`: separator-free pieces come back unchanged. */
  lemma {:induction false} SplitJoin(pieces: seq<string>, sep: char)
    requires |pieces| > 0
    requires forall i :: 0 <= i < |pieces| ==> sep !in pieces[i]
    ensures Split(Join(pieces, sep), sep) == pieces
    decreases |pieces|, |pieces[0]|
  {
    var p := pieces[0];
    var tail := pieces[1..];
    assert pieces == [p] + tail;
    assert forall i :: 0 <= i < |tail| ==> sep !in tail[i] by {
      forall i | 0 <= i < |tail| ensures sep !in tail[i] {
        assert tail[i] == pieces[i + 1];
      }
    }
    JoinCons(p, tail, sep);
    if |p| == 0 {
      if |tail| > 0 {
        SplitJoin(tail, sep);
        assert Join(pieces, sep) == [sep] + Join(tail, sep);
        SplitSeparatorHead(Join(tail, sep), sep);
      }
    } else {
      var shorter := [p[1..]] + tail;
      assert sep !in p[1..] by {
        forall c | c in p[1..] ensures c != sep {
          assert c in p;
        }
      }
      assert forall i :: 0 <= i < |shorter| ==> sep !in shorter[i] by {
        forall i | 0 <= i < |shorter| ensures sep !in shorter[i] {
          if i > 0 {
            assert shorter[i] == tail[i - 1];
          }
        }
      }
      SplitJoin(shorter, sep);
      JoinCons(p[1..], tail, sep);
      assert p == [p[0]] + p[1..];
      assert Join(pieces, sep) == [p[0]] + Join(shorter, sep);
      SplitCharHead(p[0], Join(shorter, sep), sep);
    }
  }

  lemma SplitSeparatorHead(t: string, sep: char)
    ensures Split([sep] + t, sep) == [""] + Split(t, sep)
  {
    assert ([sep] + t)[1..] == t;
  }

  lemma SplitCharHead(c: char, t: string, sep: char)
    requires c != sep
    ensures Split([c] + t, sep) == [[c] + Split(t, sep)[0]] + Split(t, sep)[1..]
  {
    assert ([c] + t)[1..] == t;
  }

  /** `s.replace(/\/$/, "")`: removes one trailing slash, if there is one. */
  function StripTrailingSlash(s: string): (r: string)
    ensures |s| > 0 && s[|s| - 1] == '/' ==> s == r + "/"
    ensures !(|s| > 0 && s[|s| - 1] == '/') ==> r == s
  {
    if |s| > 0 && s[|s| - 1] == '/' then s[..|s| - 1] else s
  }

  /** Stripping undoes appending exactly one slash, and no more than one. */
  lemma StripAppendedSlash(s: string)
    ensures StripTrailingSlash(s + "/") == s
    ensures StripTrailingSlash(s + "//") == s + "/"
  {
    assert (s + "/")[..|s|] == s;
    assert (s + "//")[..|s| + 1] == s + "/";
  }

  /** The canonical form the regular-expression engine compares under the `i` flag,
      restricted to what matters here: ASCII upper-case letters fold to lower case and
      nothing else changes (non-ASCII characters never fold onto ASCII ones). */
  function AsciiLower(c: char): char {
    if 'A' <= c <= 'Z' then (c as int - 'A' as int + 'a' as int) as char else c
  }

  /** Does `s` start with `prefix`? */
  predicate HasPrefix(s: string, prefix: string) {
    |prefix| <= |s| && s[..|prefix|] == prefix
  }

  /** Does `pattern` (written in lower case) occur in `s` at position `i`, ignoring ASCII case? */
  predicate CaselessAt(s: string, pattern: string, i: nat) {
    i + |pattern| <= |s| && forall j :: 0 <= j < |pattern| ==> AsciiLower(s[i + j]) == pattern[j]
  }

  /** `/pattern/i.test(s)` for a lower-case pattern without metacharacters. */
  predicate ContainsCaseless(s: string, pattern: string) {
    exists i :: 0 <= i <= |s| && CaselessAt(s, pattern, i)
  }
}
