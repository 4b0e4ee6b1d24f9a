/** String helpers with the semantics of the JavaScript built-ins the system
    relies on: `trim`, `startsWith`, `includes`, `indexOf`, `split`, `join`,
    `replace` (first occurrence) and global single-character replacement. */
module Strs {
  import opened Wrappers

  /** The white-space and line-terminator characters of ECMAScript, which are
      both what `String.prototype.trim` removes and what the regex class `\s`
      matches. */
  predicate IsSpace(c: char) {
    c == ' ' || c == '\t' || c == '\n' || c == '\r' || c == '\U{000B}' || c == '\U{000C}'
    || c == '\U{00A0}' || c == '\U{1680}' || ('\U{2000}' <= c <= '\U{200A}')
    || c == '\U{2028}' || c == '\U{2029}' || c == '\U{202F}' || c == '\U{205F}'
    || c == '\U{3000}' || c == '\U{FEFF}'
  }

  /** The characters the regex `.` does not match. */
  predicate IsLineTerminator(c: char) {
    c == '\n' || c == '\r' || c == '\U{2028}' || c == '\U{2029}'
  }

  predicate SingleLine(s: string) {
    forall i :: 0 <= i < |s| ==> !IsLineTerminator(s[i])
  }

  predicate StartsWith(s: string, p: string) {
    |p| <= |s| && s[..|p|] == p
  }

  /** `s.includes(sub)`: some suffix of `s` starts with `sub`. */
  predicate Contains(s: string, sub: string)
    decreases |s|
  {
    StartsWith(s, sub) || (|s| > 0 && Contains(s[1..], sub))
  }

  /** Every string contains the empty string. */
  lemma ContainsEmpty(s: string)
    ensures Contains(s, "")
  {
  }

  /** `Contains` holds exactly when `sub` occurs at some index. */
  lemma {:induction false} ContainsAt(s: string, sub: string)
    ensures Contains(s, sub) <==> exists k :: 0 <= k <= |s| && StartsWith(s[k..], sub)
    decreases |s|
  {
    if Contains(s, sub) {
      if !StartsWith(s, sub) {
        ContainsAt(s[1..], sub);
        var k :| 0 <= k <= |s[1..]| && StartsWith(s[1..][k..], sub);
        assert s[1..][k..] == s[k + 1..];
      } else {
        assert s[0..] == s;
      }
    } else {
      forall k | 0 <= k <= |s|
        ensures !StartsWith(s[k..], sub)
      {
        if k == 0 {
          assert s[0..] == s;
        } else {
          ContainsAt(s[1..], sub);
          assert s[1..][k - 1..] == s[k..];
        }
      }
    }
  }

  /** The first index at or after `from` where `sub` occurs. */
  function IndexFrom(s: string, sub: string, from: nat): (r: Option<nat>)
    requires from <= |s|
    ensures r.Some? ==> from <= r.value && r.value + |sub| <= |s| && s[r.value..r.value + |sub|] == sub
    ensures r.Some? ==> forall j :: from <= j < r.value ==> !StartsWith(s[j..], sub)
    ensures r.None? ==> forall j :: from <= j <= |s| ==> !StartsWith(s[j..], sub)
    decreases |s| - from
  {
    if StartsWith(s[from..], sub) then Some(from)
    else if from == |s| then None
    else IndexFrom(s, sub, from + 1)
  }

  /** `s.indexOf(sub)`, with `None` for -1. */
  function IndexOf(s: string, sub: string): (r: Option<nat>)
    ensures r.Some? ==> r.value + |sub| <= |s| && s[r.value..r.value + |sub|] == sub
    ensures r.Some? ==> forall j :: 0 <= j < r.value ==> !StartsWith(s[j..], sub)
    ensures r.None? <==> !Contains(s, sub)
  {
    var r := IndexFrom(s, sub, 0);
    ContainsAt(s, sub);
    assert r.Some? ==> StartsWith(s[r.value..], sub);
    r
  }

  /** `s.replace(pat, rep)` with a string pattern: only the first occurrence
      is replaced; without an occurrence the string is returned unchanged. */
  function ReplaceFirst(s: string, pat: string, rep: string): (r: string)
    ensures !Contains(s, pat) ==> r == s
    ensures Contains(s, pat) ==>
      exists i :: 0 <= i && i + |pat| <= |s| && s[i..i + |pat|] == pat
        && (forall j :: 0 <= j < i ==> !StartsWith(s[j..], pat))
        && r == s[..i] + rep + s[i + |pat|..]
  {
    match IndexOf(s, pat)
    case None => s
    case Some(i) => s[..i] + rep + s[i + |pat|..]
  }

  /** `s.trimStart()`. */
  function TrimStart(s: string): (r: string)
    ensures |r| <= |s| && r == s[|s| - |r|..]
    ensures forall i :: 0 <= i < |s| - |r| ==> IsSpace(s[i])
    ensures |r| > 0 ==> !IsSpace(r[0])
  {
    if |s| > 0 && IsSpace(s[0]) then TrimStart(s[1..]) else s
  }

  /** `s.trimEnd()`. */
  function TrimEnd(s: string): (r: string)
    ensures |r| <= |s| && r == s[..|r|]
    ensures forall i :: |r| <= i < |s| ==> IsSpace(s[i])
    ensures |r| > 0 ==> !IsSpace(r[|r| - 1])
  {
    if |s| > 0 && IsSpace(s[|s| - 1]) then TrimEnd(s[..|s| - 1]) else s
  }

  /** The number of white-space characters `trimStart` drops. */
  function TrimOffset(s: string): (k: nat)
    ensures k <= |s|
  {
    |s| - |TrimStart(s)|
  }

  /** `s.trim()`. */
  function Trim(s: string): string {
    TrimEnd(TrimStart(s))
  }

  /** What trimming keeps: the infix of `s` left after dropping white space
      at both ends, which neither starts nor ends with white space. */
  lemma TrimSpec(s: string)
    ensures TrimOffset(s) + |Trim(s)| <= |s| && Trim(s) == s[TrimOffset(s)..TrimOffset(s) + |Trim(s)|]
    ensures forall i :: 0 <= i < TrimOffset(s) ==> IsSpace(s[i])
    ensures forall i :: TrimOffset(s) + |Trim(s)| <= i < |s| ==> IsSpace(s[i])
    ensures |Trim(s)| > 0 ==> !IsSpace(Trim(s)[0]) && !IsSpace(Trim(s)[|Trim(s)| - 1])
  {
    var a := TrimStart(s);
    var r := TrimEnd(a);
    var k := |s| - |a|;
    assert r == s[k..k + |r|];
  }

  /** A string without white space at either end is its own trim. */
  lemma TrimNoEdges(s: string)
    requires |s| > 0 ==> !IsSpace(s[0]) && !IsSpace(s[|s| - 1])
    ensures Trim(s) == s
  {
  }

  /** Trimming a single-line string leaves it single-line. */
  lemma TrimSingleLine(s: string)
    requires SingleLine(s)
    ensures SingleLine(Trim(s))
  {
    TrimSpec(s);
    var k := TrimOffset(s);
    forall i | 0 <= i < |Trim(s)|
      ensures !IsLineTerminator(Trim(s)[i])
    {
      assert Trim(s)[i] == s[k + i];
    }
  }

  /** Trimming brings in no character. */
  lemma TrimKeepsOut(s: string, c: char)
    requires c !in s
    ensures c !in Trim(s)
  {
    TrimSpec(s);
    var k := TrimOffset(s);
    forall i | 0 <= i < |Trim(s)|
      ensures Trim(s)[i] != c
    {
      assert Trim(s)[i] == s[k + i];
    }
  }

  lemma TrimIdempotent(s: string)
    ensures Trim(Trim(s)) == Trim(s)
  {
    TrimSpec(s);
    TrimNoEdges(Trim(s));
  }

  /** A string made of white space only trims to the empty string. */
  lemma {:induction false} TrimAllSpace(s: string)
    requires forall i :: 0 <= i < |s| ==> IsSpace(s[i])
    ensures Trim(s) == ""
    decreases |s|
  {
    if |s| > 0 {
      TrimAllSpace(s[1..]);
    }
  }

  /** `parts.join(sep)`. */
  function Join(parts: seq<string>, sep: string): (r: string)
    ensures |parts| == 1 ==> r == parts[0]
    decreases |parts|
  {
    if |parts| == 0 then ""
    else if |parts| == 1 then parts[0]
    else parts[0] + sep + Join(parts[1..], sep)
  }

  /** A character in neither the pieces nor the separator is not in the
      join. */
  lemma {:induction false} JoinFree(parts: seq<string>, sep: string, c: char)
    requires c !in sep && forall k :: 0 <= k < |parts| ==> c !in parts[k]
    ensures c !in Join(parts, sep)
    decreases |parts|
  {
    if |parts| > 1 {
      JoinFree(parts[1..], sep, c);
    }
  }

  function Pre(ps: seq<string>, b: string): (r: seq<string>)
    ensures |r| == |ps| && forall i :: 0 <= i < |ps| ==> r[i] == b + ps[i]
  {
    seq(|ps|, i requires 0 <= i < |ps| => b + ps[i])
  }

  lemma JoinHead(b: string, x: string, rest: seq<string>, a: string)
    ensures Join([b + x] + rest, a) == b + Join([x] + rest, a)
  {
    if |rest| > 0 {
      assert ([b + x] + rest)[1..] == rest;
      assert ([x] + rest)[1..] == rest;
    }
  }

  /** Joining with `a + b` is joining with `a` after prefixing every piece
      but the first with `b`. */
  lemma {:induction false} JoinSplitSeparator(parts: seq<string>, a: string, b: string)
    requires |parts| >= 1
    ensures Join(parts, a + b) == Join([parts[0]] + Pre(parts[1..], b), a)
    decreases |parts|
  {
    if |parts| > 1 {
      JoinSplitSeparator(parts[1..], a, b);
      var tail := parts[2..];
      assert parts[1..][1..] == tail;
      assert Pre(parts[1..], b) == [b + parts[1]] + Pre(tail, b);
      JoinHead(b, parts[1], Pre(tail, b), a);
      assert ([parts[0]] + Pre(parts[1..], b))[1..] == Pre(parts[1..], b);
    }
  }

  lemma TrimLeadingSpace(t: string)
    requires Trim(t) == t
    ensures Trim(" " + t) == t
  {
    assert (" " + t)[1..] == t;
  }

  /** The pieces of `Join(tags, sep + " ")` when split at `sep`: every
      piece but the first keeps the space that followed the separator. */
  function Spaced(tags: seq<string>): (r: seq<string>)
    requires |tags| > 0
    ensures |r| == |tags| && r[0] == tags[0] && forall i :: 1 <= i < |tags| ==> r[i] == " " + tags[i]
  {
    [tags[0]] + Pre(tags[1..], " ")
  }

  lemma SpacedFree(tags: seq<string>, c: char)
    requires |tags| > 0 && c != ' ' && forall i :: 0 <= i < |tags| ==> c !in tags[i]
    ensures forall k :: 0 <= k < |tags| ==> c !in Spaced(tags)[k]
  {
    var sp := Spaced(tags);
    forall k | 0 <= k < |tags| ensures c !in sp[k] {
      if k > 0 {
        assert sp[k] == " " + tags[k];
      }
    }
  }

  lemma SpacedTrims(tags: seq<string>)
    requires |tags| > 0 && forall i :: 0 <= i < |tags| ==> Trim(tags[i]) == tags[i]
    ensures forall k :: 0 <= k < |tags| ==> Trim(Spaced(tags)[k]) == tags[k]
  {
    var sp := Spaced(tags);
    forall k | 0 <= k < |tags| ensures Trim(sp[k]) == tags[k] {
      if k > 0 {
        TrimLeadingSpace(tags[k]);
      }
    }
  }

  /** The first index of character `c` in `s`. */
  function CharIndex(s: string, c: char): (r: Option<nat>)
    ensures r.Some? ==> r.value < |s| && s[r.value] == c && c !in s[..r.value]
    ensures r.None? <==> c !in s
  {
    if |s| == 0 then None
    else if s[0] == c then Some(0)
    else match CharIndex(s[1..], c)
      case None => None
      case Some(i) => assert s[1..][..i] == s[1..i + 1]; Some(i + 1)
  }

  /** `s.split(sep)` for a one-character separator: the pieces between the
      separators, at least one piece, none containing `sep`. */
  function Split(s: string, sep: char): (r: seq<string>)
    ensures |r| >= 1
    ensures forall k :: 0 <= k < |r| ==> sep !in r[k]
    ensures sep !in s ==> r == [s]
    decreases |s|
  {
    match CharIndex(s, sep)
    case None => [s]
    case Some(i) => [s[..i]] + Split(s[i + 1..], sep)
  }

  /** A string is its part before position `i`, the character there, and
      its part after. */
  lemma Around(s: string, i: nat)
    requires i < |s|
    ensures s == s[..i] + [s[i]] + s[i + 1..]
  {
    assert s == s[..i] + s[i..];
    assert s[i..] == [s[i]] + s[i + 1..];
  }

  /** Joining the pieces of a split with the same separator gives back the
      original string. */
  lemma {:induction false} JoinSplit(s: string, sep: char)
    ensures Join(Split(s, sep), [sep]) == s
    decreases |s|
  {
    var ci := CharIndex(s, sep);
    if ci.Some? {
      var i := ci.value;
      var head, tail := s[..i], s[i + 1..];
      var rest := Split(tail, sep);
      assert Split(s, sep) == [head] + rest;
      JoinSplit(tail, sep);
      JoinCons(head, rest, [sep]);
      Around(s, i);
    }
  }

  /** Joining a piece in front of a non-empty list puts the separator
      between the piece and the rest's join. */
  lemma JoinCons(p: string, rest: seq<string>, sep: string)
    requires |rest| >= 1
    ensures Join([p] + rest, sep) == p + sep + Join(rest, sep)
  {
    assert ([p] + rest)[1..] == rest;
  }

  /** The separator right after a separator-free prefix is the first one. */
  lemma {:induction false} CharIndexAfter(a: string, c: char, b: string)
    requires c !in a
    ensures CharIndex(a + [c] + b, c) == Some(|a|)
    decreases |a|
  {
    if |a| > 0 {
      CharIndexAfter(a[1..], c, b);
      assert (a + [c] + b)[1..] == a[1..] + [c] + b;
    }
  }

  /** Splitting after a separator-free first piece splits off that piece. */
  lemma SplitStep(a: string, c: char, b: string)
    requires c !in a
    ensures Split(a + [c] + b, c) == [a] + Split(b, c)
  {
    var s := a + [c] + b;
    CharIndexAfter(a, c, b);
    assert s[..|a|] == a;
    assert s[|a| + 1..] == b;
  }

  /** Splitting a join of separator-free pieces gives back the pieces. */
  lemma {:induction false} SplitJoin(parts: seq<string>, sep: char)
    requires |parts| >= 1
    requires forall k :: 0 <= k < |parts| ==> sep !in parts[k]
    ensures Split(Join(parts, [sep]), sep) == parts
    decreases |parts|
  {
    if |parts| > 1 {
      var tail := Join(parts[1..], [sep]);
      JoinCons(parts[0], parts[1..], [sep]);
      assert [parts[0]] + parts[1..] == parts;
      SplitStep(parts[0], sep, tail);
      SplitJoin(parts[1..], sep);
    }
  }

  /** Replaces every character of `cs` by `rep`, as `replace(/[..]/g, rep)`. */
  function ReplaceChars(s: string, cs: set<char>, rep: string): (r: string)
    ensures (forall i :: 0 <= i < |s| ==> s[i] !in cs) ==> r == s
    ensures |rep| == 1 ==> |r| == |s|
    ensures |rep| == 1 ==> forall i :: 0 <= i < |s| ==> r[i] == (if s[i] in cs then rep[0] else s[i])
    decreases |s|
  {
    if |s| == 0 then ""
    else (if s[0] in cs then rep else [s[0]]) + ReplaceChars(s[1..], cs, rep)
  }

  /** ASCII lower-casing, standing in for `toLowerCase`. */
  function LowerChar(c: char): (r: char)
    ensures 'A' <= c <= 'Z' ==> r as int == c as int + 32
    ensures !('A' <= c <= 'Z') ==> r == c
  {
    if 'A' <= c <= 'Z' then (c as int + 32) as char else c
  }

  function Lower(s: string): (r: string)
    ensures |r| == |s| && forall i :: 0 <= i < |s| ==> r[i] == LowerChar(s[i])
  {
    seq(|s|, i requires 0 <= i < |s| => LowerChar(s[i]))
  }

  /** Lower-casing twice is lower-casing once. */
  lemma LowerIdempotent(s: string)
    ensures Lower(Lower(s)) == Lower(s)
  {
  }

  /** The UTF-16 code units of one character: two for a character beyond
      the Basic Multilingual Plane (a surrogate pair), one otherwise. */
  function Utf16Units(c: char): (n: nat)
    ensures n == 1 || n == 2
  {
    if c as int > 0xFFFF then 2 else 1
  }

  /** `s.length` in JavaScript, which counts UTF-16 code units. */
  function Utf16Length(s: string): (n: nat)
    ensures |s| <= n <= 2 * |s|
    ensures n == 0 <==> s == []
    decreases |s|
  {
    if |s| == 0 then 0 else Utf16Units(s[0]) + Utf16Length(s[1..])
  }

  /** For text inside the Basic Multilingual Plane the JavaScript length is
      the number of characters. */
  lemma {:induction false} Utf16LengthBmp(s: string)
    requires forall i :: 0 <= i < |s| ==> s[i] as int <= 0xFFFF
    ensures Utf16Length(s) == |s|
    decreases |s|
  {
    if |s| > 0 {
      Utf16LengthBmp(s[1..]);
    }
  }

  /** Decimal digits of a natural number, as `String(n)`. */
  function NatToString(n: nat): (r: string)
    ensures |r| >= 1
    ensures forall i :: 0 <= i < |r| ==> '0' <= r[i] <= '9'
    decreases n
  {
    if n < 10 then [('0' as int + n) as char]
    else NatToString(n / 10) + [('0' as int + n % 10) as char]
  }

  /** `String(n)` for an integer; negative numbers get a leading `-`. */
  function IntToString(n: int): (r: string)
    ensures |r| >= 1
    ensures n >= 0 ==> r == NatToString(n)
    ensures n < 0 ==> r == "-" + NatToString(-n)
  {
    if n >= 0 then NatToString(n) else "-" + NatToString(-n)
  }
}
