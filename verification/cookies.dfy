/** The admin UI's cookie helpers over `document.cookie`. `enc` and `dec`
    stand for `encodeURIComponent` and `decodeURIComponent`; `None` for
    the document means there is none (server rendering). */
module Cookies {
  import opened Wrappers
  import opened Strs

  const DefaultTtlDays: int := 180
  const DayMs: int := 24 * 60 * 60 * 1000

  /** The first segment that starts with `prefix`. */
  function FirstMatch(segs: seq<string>, prefix: string): (r: Option<nat>)
    ensures r.Some? ==> r.value < |segs| && StartsWith(segs[r.value], prefix)
    ensures r.Some? ==> forall j :: 0 <= j < r.value ==> !StartsWith(segs[j], prefix)
    ensures r.None? ==> forall j :: 0 <= j < |segs| ==> !StartsWith(segs[j], prefix)
    decreases |segs|
  {
    if |segs| == 0 then None
    else if StartsWith(segs[0], prefix) then Some(0)
    else match FirstMatch(segs[1..], prefix)
      case None => None
      case Some(i) => Some(i + 1)
  }

  function TrimAll(segs: seq<string>): (r: seq<string>)
    ensures |r| == |segs| && forall i :: 0 <= i < |segs| ==> r[i] == Trim(segs[i])
  {
    seq(|segs|, i requires 0 <= i < |segs| => Trim(segs[i]))
  }

  /** `getCookie`: the decoded text after `enc(name)=` in the first
      matching `;`-separated segment, or `None`. */
  function GetCookie(doc: Option<string>, name: string, enc: string -> string, dec: string -> string): (r: Option<string>)
    ensures doc.None? ==> r.None?
    ensures doc.Some? ==> (r.Some? <==> FirstMatch(TrimAll(Split(doc.value, ';')), enc(name) + "=").Some?)
  {
    if doc.None? then None
    else
      var prefix := enc(name) + "=";
      var segs := TrimAll(Split(doc.value, ';'));
      match FirstMatch(segs, prefix)
      case None => None
      case Some(i) => Some(dec(segs[i][|prefix|..]))
  }

  /** `setCookie`: the assignment to `document.cookie`, expiring `days`
      (180 by default) after `now`; `utc` is `toUTCString`. Without a
      document nothing is written. */
  function SetCookie(hasDocument: bool, name: string, value: string, days: Option<int>, now: int,
                     enc: string -> string, utc: int -> string): (r: Option<string>)
    ensures !hasDocument ==> r.None?
    ensures hasDocument ==> r == Some(enc(name) + "=" + enc(value) + "; expires=" + utc(now + days.GetOr(DefaultTtlDays) * DayMs) + "; path=/")
  {
    if !hasDocument then None
    else Some(enc(name) + "=" + enc(value) + "; expires=" + utc(now + days.GetOr(DefaultTtlDays) * DayMs) + "; path=/")
  }

  /** `=` closes the name, so a segment matches only its own name: a name
      that is a proper prefix of another (`lang` of `language`) does not
      match. */
  lemma MatchIsExactName(encName: string, segName: string, v: string)
    requires '=' !in segName && '=' !in encName
    ensures StartsWith(segName + "=" + v, encName + "=") <==> segName == encName
  {
    var s := segName + "=" + v;
    if |encName| < |segName| {
      assert s[|encName|] == segName[|encName|];
    } else if |encName| > |segName| {
      assert s[|segName|] == '=';
    } else {
      assert s[..|encName|] == segName;
    }
  }

  /** What the browser keeps of each assignment: `name=value`. */
  function Pair(p: (string, string), enc: string -> string): string {
    enc(p.0) + "=" + enc(p.1)
  }

  /** `document.cookie` for stored cookies: their pairs joined by `; `. */
  function Jar(cookies: seq<(string, string)>, enc: string -> string): string {
    Join(Pairs(cookies, enc), "; ")
  }

  /** What `encodeURIComponent` guarantees: no `;`, `=` or white space in
      its output, distinct inputs stay distinct, and decoding inverts it. */
  ghost predicate UriCoding(enc: string -> string, dec: string -> string) {
    (forall s :: ';' !in enc(s) && '=' !in enc(s) && forall k :: 0 <= k < |enc(s)| ==> !IsSpace(enc(s)[k]))
    && (forall a, b :: enc(a) == enc(b) ==> a == b)
    && (forall s :: dec(enc(s)) == s)
  }

  lemma PairShape(p: (string, string), enc: string -> string, dec: string -> string)
    requires UriCoding(enc, dec)
    ensures ';' !in Pair(p, enc) && ' ' !in Pair(p, enc)
    ensures Trim(Pair(p, enc)) == Pair(p, enc)
  {
    var s := Pair(p, enc);
    assert forall k :: 0 <= k < |s| ==> !IsSpace(s[k]) by {
      forall k | 0 <= k < |s| ensures !IsSpace(s[k]) {
        if k < |enc(p.0)| {
          assert s[k] == enc(p.0)[k];
        } else if k > |enc(p.0)| {
          assert s[k] == enc(p.1)[k - |enc(p.0)| - 1];
        }
      }
    }
    TrimNoEdges(s);
  }

  /** The pairs of stored cookies, in order. */
  function Pairs(cookies: seq<(string, string)>, enc: string -> string): (r: seq<string>)
    ensures |r| == |cookies| && forall i :: 0 <= i < |cookies| ==> r[i] == Pair(cookies[i], enc)
  {
    seq(|cookies|, i requires 0 <= i < |cookies| => Pair(cookies[i], enc))
  }

  /** Every stored pair is one clean segment: no `;`, no space, nothing to
      trim. */
  lemma PairsShape(cookies: seq<(string, string)>, enc: string -> string, dec: string -> string)
    requires UriCoding(enc, dec)
    ensures var parts := Pairs(cookies, enc);
      forall i :: 0 <= i < |parts| ==> ';' !in parts[i] && Trim(parts[i]) == parts[i]
  {
    var parts := Pairs(cookies, enc);
    forall i | 0 <= i < |parts| ensures ';' !in parts[i] && Trim(parts[i]) == parts[i] {
      PairShape(cookies[i], enc, dec);
    }
  }

  /** Trimming the spaced pieces of clean segments gives the segments. */
  lemma TrimSpaced(parts: seq<string>)
    requires |parts| >= 1
    requires forall i :: 0 <= i < |parts| ==> Trim(parts[i]) == parts[i]
    ensures TrimAll(Spaced(parts)) == parts
  {
    SpacedTrims(parts);
  }

  /** Splitting a list of clean segments joined by `sep` and a space at
      `sep`, and trimming the pieces, gives back the segments. */
  lemma SegmentsOfJoin(parts: seq<string>, sep: char)
    requires |parts| >= 1 && sep != ' '
    requires forall i :: 0 <= i < |parts| ==> sep !in parts[i] && Trim(parts[i]) == parts[i]
    ensures TrimAll(Split(Join(parts, [sep] + " "), sep)) == parts
  {
    var sp := Spaced(parts);
    JoinSplitSeparator(parts, [sep], " ");
    SpacedFree(parts, sep);
    SplitJoin(sp, sep);
    TrimSpaced(parts);
  }

  /** The segments of a jar are the stored pairs. */
  lemma JarSegments(cookies: seq<(string, string)>, enc: string -> string, dec: string -> string)
    requires UriCoding(enc, dec) && |cookies| >= 1
    ensures TrimAll(Split(Jar(cookies, enc), ';')) == Pairs(cookies, enc)
  {
    PairsShape(cookies, enc, dec);
    assert "; " == [';'] + " ";
    SegmentsOfJoin(Pairs(cookies, enc), ';');
  }

  /** A stored pair starts with `enc(name)=` exactly when it is stored under
      that name. */
  lemma PairsMatchName(cookies: seq<(string, string)>, name: string, enc: string -> string, dec: string -> string)
    requires UriCoding(enc, dec)
    ensures var parts := Pairs(cookies, enc);
      forall j :: 0 <= j < |parts| ==> (StartsWith(parts[j], enc(name) + "=") <==> cookies[j].0 == name)
  {
    var parts := Pairs(cookies, enc);
    forall j | 0 <= j < |parts| ensures StartsWith(parts[j], enc(name) + "=") <==> cookies[j].0 == name {
      MatchIsExactName(enc(name), enc(cookies[j].0), enc(cookies[j].1));
    }
  }

  /** Reading back: `getCookie` gives the value of the first stored
      cookie with that name. */
  lemma ReadsFirstStored(cookies: seq<(string, string)>, k: nat, enc: string -> string, dec: string -> string)
    requires UriCoding(enc, dec)
    requires k < |cookies| && forall j :: 0 <= j < k ==> cookies[j].0 != cookies[k].0
    ensures GetCookie(Some(Jar(cookies, enc)), cookies[k].0, enc, dec) == Some(cookies[k].1)
  {
    var parts := Pairs(cookies, enc);
    var prefix := enc(cookies[k].0) + "=";
    JarSegments(cookies, enc, dec);
    PairsMatchName(cookies, cookies[k].0, enc, dec);
    FirstMatchUnique(parts, prefix, k);
    assert parts[k][|prefix|..] == enc(cookies[k].1);
  }

  lemma FirstMatchUnique(segs: seq<string>, prefix: string, k: nat)
    requires k < |segs| && StartsWith(segs[k], prefix)
    requires forall j :: 0 <= j < k ==> !StartsWith(segs[j], prefix)
    ensures FirstMatch(segs, prefix) == Some(k)
  {
    var r := FirstMatch(segs, prefix);
    assert r.Some?;
    if r.value < k {
    } else if r.value > k {
    }
  }
}
