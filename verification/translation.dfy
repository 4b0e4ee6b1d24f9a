/** The interface texts: looking a dotted key up in a locale's nested
    record, falling back to English and then to the key, and filling the
    `{{ name }}` placeholders. */
module Translation {
  import opened Wrappers
  import opened Strs
  import opened Json

  /** A translation record entry: a text, or a nested record. */
  datatype TNode = Leaf(text: string) | Branch(children: map<string, TNode>)

  /** The walk of `getFromRecord`, from the node reached so far: a text
      met before the segments run out is the answer; a missing node or a
      record left at the end gives nothing. */
  function Walk(current: Option<TNode>, segments: seq<string>): (r: Option<string>)
    ensures current == None ==> r == None
    ensures current.Some? && current.value.Leaf? ==> r == Some(current.value.text)
    decreases |segments|
  {
    if current.None? then None
    else if current.value.Leaf? then Some(current.value.text)
    else if |segments| == 0 then None
    else
      var children := current.value.children;
      Walk(if segments[0] in children then Some(children[segments[0]]) else None, segments[1..])
  }

  /** `getFromRecord(record, segments)`. */
  function GetFromRecord(record: map<string, TNode>, segments: seq<string>): (r: Option<string>)
    ensures |segments| == 0 ==> r == None
  {
    Walk(Some(Branch(record)), segments)
  }

  /** A text found for a key is also found for any longer key: the walk
      stops at the first text it meets. */
  lemma {:induction false} WalkExtends(current: Option<TNode>, segments: seq<string>, more: seq<string>)
    requires Walk(current, segments).Some?
    ensures Walk(current, segments + more) == Walk(current, segments)
    decreases |segments|
  {
    if current.Some? && current.value.Branch? {
      assert (segments + more)[1..] == segments[1..] + more;
      var children := current.value.children;
      WalkExtends(if segments[0] in children then Some(children[segments[0]]) else None, segments[1..], more);
    }
  }

  /** The record holding just `text` under the path `segments`. */
  function Nest(segments: seq<string>, text: string): (n: TNode)
    decreases |segments|
  {
    if |segments| == 0 then Leaf(text)
    else Branch(map[segments[0] := Nest(segments[1..], text)])
  }

  /** Looking up the path a text was stored under finds that text. */
  lemma {:induction false} WalkNest(segments: seq<string>, text: string)
    ensures Walk(Some(Nest(segments, text)), segments) == Some(text)
    decreases |segments|
  {
    if |segments| > 0 {
      WalkNest(segments[1..], text);
    }
  }

  /** A key whose first segment names a text resolves to that text, however
      many segments follow. */
  lemma EarlyText(record: map<string, TNode>, segments: seq<string>)
    requires |segments| > 0 && segments[0] in record && record[segments[0]].Leaf?
    ensures GetFromRecord(record, segments) == Some(record[segments[0]].text)
  {
  }

  /** `resolveTranslation`: the key split at its dots, looked up in the
      locale's record. */
  function Resolve(catalog: string -> map<string, TNode>, locale: string, key: string): Option<string> {
    GetFromRecord(catalog(locale), Split(key, '.'))
  }

  // ------------------------------------------------------------ templates

  /** The regex class `\w`. */
  predicate IsWordChar(c: char) {
    'a' <= c <= 'z' || 'A' <= c <= 'Z' || '0' <= c <= '9' || c == '_'
  }

  /** The end of the run of white space starting at `i`. */
  function SkipSpaces(s: string, i: nat): (j: nat)
    requires i <= |s|
    ensures i <= j <= |s| && (forall k :: i <= k < j ==> IsSpace(s[k])) && (j < |s| ==> !IsSpace(s[j]))
    decreases |s| - i
  {
    if i < |s| && IsSpace(s[i]) then SkipSpaces(s, i + 1) else i
  }

  /** The end of the run of word characters starting at `i`. */
  function SkipWord(s: string, i: nat): (j: nat)
    requires i <= |s|
    ensures i <= j <= |s| && (forall k :: i <= k < j ==> IsWordChar(s[k])) && (j < |s| ==> !IsWordChar(s[j]))
    decreases |s| - i
  {
    if i < |s| && IsWordChar(s[i]) then SkipWord(s, i + 1) else i
  }

  /** A match of `{{\s*(\w+)\s*}}` at the start of `s`: where it ends
      and the captured name. White space and word characters are disjoint
      and neither is a brace, so greedy matching is the only way to match. */
  function MatchAt(s: string): (r: Option<(nat, string)>)
    ensures r.Some? ==> 4 < r.value.0 <= |s| && s[..2] == "{{" && s[r.value.0 - 2..r.value.0] == "}}"
    ensures r.Some? ==> |r.value.1| > 0 && forall k :: 0 <= k < |r.value.1| ==> IsWordChar(r.value.1[k])
  {
    if 2 <= |s| && s[..2] == "{{" then
      var a := SkipSpaces(s, 2);
      var b := SkipWord(s, a);
      var c := SkipSpaces(s, b);
      if a < b && c + 2 <= |s| && s[c..c + 2] == "}}" then Some((c + 2, s[a..b])) else None
    else None
  }

  /** What a placeholder becomes: the value's text, or nothing for a null
      or missing value; `show` stands for `String(value)`. */
  function Substitute(values: map<string, Json>, name: string, show: Json -> string): (r: string)
    ensures name !in values || values[name] == JNull ==> r == ""
  {
    if name in values && values[name] != JNull then show(values[name]) else ""
  }

  /** The global replace: scanning left to right, each match is replaced
      and the scan goes on after it; elsewhere one character is kept. */
  function Fill(s: string, values: map<string, Json>, show: Json -> string): (r: string)
    decreases |s|
  {
    if |s| == 0 then ""
    else match MatchAt(s)
      case Some((e, name)) => Substitute(values, name, show) + Fill(s[e..], values, show)
      case None => [s[0]] + Fill(s[1..], values, show)
  }

  /** `formatTemplate`: without values the template is returned as is. */
  function FormatTemplate(template: string, values: Option<map<string, Json>>, show: Json -> string): (r: string)
    ensures values.None? ==> r == template
  {
    if values.None? then template else Fill(template, values.value, show)
  }

  /** No placeholder matches at any position of `s`. */
  ghost predicate NoPlaceholder(s: string) {
    forall k :: 0 <= k <= |s| ==> MatchAt(s[k..]).None?
  }

  /** A template in which nothing matches the placeholder pattern is left
      exactly as it is, whatever the values. */
  lemma {:induction false} FillNoMatch(s: string, values: map<string, Json>, show: Json -> string)
    requires NoPlaceholder(s)
    ensures Fill(s, values, show) == s
    decreases |s|
  {
    if |s| > 0 {
      assert s[0..] == s;
      forall k | 0 <= k <= |s[1..]| ensures MatchAt(s[1..][k..]).None? {
        assert s[1..][k..] == s[k + 1..];
      }
      FillNoMatch(s[1..], values, show);
    }
  }

  /** A text with no two braces in a row holds no placeholder. */
  lemma NoBracesNoPlaceholder(s: string)
    requires forall k :: 0 <= k < |s| - 1 ==> !(s[k] == '{' && s[k + 1] == '{')
    ensures NoPlaceholder(s)
  {
    forall k | 0 <= k <= |s| ensures MatchAt(s[k..]).None? {
      if 2 <= |s[k..]| {
        assert s[k..][..2] == [s[k], s[k + 1]];
      }
    }
  }

  /** Placeholders whose name holds a character other than a word
      character, such as `{{user-name}}`, are left untouched. */
  lemma NonWordPlaceholderKept(values: map<string, Json>, show: Json -> string)
    ensures FormatTemplate("{{user-name}}", Some(values), show) == "{{user-name}}"
  {
    var s := "{{user-name}}";
    forall k | 0 <= k <= |s| ensures MatchAt(s[k..]).None? {
      if k == 0 {
        assert s[0..] == s;
        NonWordNoMatch(s);
      } else if k + 2 <= |s| {
        assert s[k..][..2] == [s[k], s[k + 1]];
        assert s[k + 1] != '{';
      }
    }
    FillNoMatch(s, values, show);
  }

  /** The match stops at the `-` of `{{user-name}}`. */
  lemma NonWordNoMatch(s: string)
    requires s == "{{user-name}}"
    ensures MatchAt(s).None?
  {
    assert forall k :: 2 <= k < 6 ==> IsWordChar(s[k]);
    assert s[2] == 'u' && s[6] == '-';
    SkipSpacesRun(s, 2, 2);
    SkipWordRun(s, 2, 6);
    SkipSpacesRun(s, 6, 6);
    MatchAtStops(s, 2, 6, 6);
  }

  /** `MatchAt` fails when the runs do not end at a closing `}}`. */
  lemma MatchAtStops(s: string, a: nat, b: nat, c: nat)
    requires 2 <= |s| && c <= |s| && SkipSpaces(s, 2) == a && SkipWord(s, a) == b && SkipSpaces(s, b) == c
    requires c < |s| && s[c] != '}'
    ensures MatchAt(s).None?
  {
  }

  /** The placeholder `{{ name }}` with white space `pre` and `post`. */
  function Placeholder(pre: string, name: string, post: string): string {
    "{{" + pre + name + post + "}}"
  }

  /** A word placeholder, with any white space inside its braces, matches
      at the start of a text and captures its name. */
  lemma MatchPlaceholder(pre: string, name: string, post: string, rest: string)
    requires |name| > 0 && (forall k :: 0 <= k < |name| ==> IsWordChar(name[k]))
    requires (forall k :: 0 <= k < |pre| ==> IsSpace(pre[k])) && (forall k :: 0 <= k < |post| ==> IsSpace(post[k]))
    ensures MatchAt(Placeholder(pre, name, post) + rest) == Some((|Placeholder(pre, name, post)|, name))
  {
    var s := Placeholder(pre, name, post) + rest;
    var a := 2 + |pre|;
    var b := a + |name|;
    var c := b + |post|;
    PlaceholderRuns(pre, name, post, rest);
    PlaceholderParts(pre, name, post, rest);
    MatchAtRuns(s, a, b, c);
  }

  /** `MatchAt` from where its three runs end. */
  lemma MatchAtRuns(s: string, a: nat, b: nat, c: nat)
    requires 2 <= a < b <= c && c + 2 <= |s| && s[..2] == "{{" && s[c..c + 2] == "}}"
    requires SkipSpaces(s, 2) == a && SkipWord(s, a) == b && SkipSpaces(s, b) == c
    ensures MatchAt(s) == Some((c + 2, s[a..b]))
  {
  }

  /** Where the runs of a placeholder end: after the opening white space,
      after the name, after the closing white space. */
  lemma PlaceholderRuns(pre: string, name: string, post: string, rest: string)
    requires |name| > 0 && (forall k :: 0 <= k < |name| ==> IsWordChar(name[k]))
    requires (forall k :: 0 <= k < |pre| ==> IsSpace(pre[k])) && (forall k :: 0 <= k < |post| ==> IsSpace(post[k]))
    ensures var s := Placeholder(pre, name, post) + rest;
      var a := 2 + |pre|;
      var b := a + |name|;
      SkipSpaces(s, 2) == a && SkipWord(s, a) == b && SkipSpaces(s, b) == b + |post|
  {
    var s := Placeholder(pre, name, post) + rest;
    var a := 2 + |pre|;
    var b := a + |name|;
    var c := b + |post|;
    assert forall k :: 2 <= k < a ==> s[k] == pre[k - 2];
    assert forall k :: a <= k < b ==> s[k] == name[k - a];
    assert forall k :: b <= k < c ==> s[k] == post[k - b];
    assert s[c] == '}';
    SkipSpacesRun(s, 2, a);
    SkipWordRun(s, a, b);
    SkipSpacesRun(s, b, c);
  }

  /** The braces and the name sit where the placeholder puts them. */
  lemma PlaceholderParts(pre: string, name: string, post: string, rest: string)
    ensures var s := Placeholder(pre, name, post) + rest;
      var a := 2 + |pre|;
      var c := a + |name| + |post|;
      c + 2 <= |s| && s[..2] == "{{" && s[a..a + |name|] == name && s[c..c + 2] == "}}"
  {
    var s := Placeholder(pre, name, post) + rest;
    assert s == ("{{" + pre) + name + (post + "}}" + rest);
    var c := 2 + |pre| + |name| + |post|;
    assert s[c] == '}' && s[c + 1] == '}';
  }

  /** Each word placeholder is replaced by its value, and filling goes on
      with the text after it. */
  lemma FillPlaceholder(pre: string, name: string, post: string, rest: string, values: map<string, Json>, show: Json -> string)
    requires |name| > 0 && (forall k :: 0 <= k < |name| ==> IsWordChar(name[k]))
    requires (forall k :: 0 <= k < |pre| ==> IsSpace(pre[k])) && (forall k :: 0 <= k < |post| ==> IsSpace(post[k]))
    ensures Fill(Placeholder(pre, name, post) + rest, values, show) == Substitute(values, name, show) + Fill(rest, values, show)
  {
    var p := Placeholder(pre, name, post);
    MatchPlaceholder(pre, name, post, rest);
    assert (p + rest)[|p|..] == rest;
  }

  lemma {:induction false} SkipSpacesRun(s: string, i: nat, j: nat)
    requires i <= j <= |s| && (forall k :: i <= k < j ==> IsSpace(s[k])) && (j < |s| ==> !IsSpace(s[j]))
    ensures SkipSpaces(s, i) == j
    decreases j - i
  {
    if i < j {
      SkipSpacesRun(s, i + 1, j);
    }
  }

  lemma {:induction false} SkipWordRun(s: string, i: nat, j: nat)
    requires i <= j <= |s| && (forall k :: i <= k < j ==> IsWordChar(s[k])) && (j < |s| ==> !IsWordChar(s[j]))
    ensures SkipWord(s, i) == j
    decreases j - i
  {
    if i < j {
      SkipWordRun(s, i + 1, j);
    }
  }

  /** `t`: the current locale's text, else the English one, else the key
      itself, with the placeholders filled. */
  function T(catalog: string -> map<string, TNode>, locale: string, key: string,
             values: Option<map<string, Json>>, show: Json -> string): (r: string)
  {
    var text :=
      if Resolve(catalog, locale, key).Some? then Resolve(catalog, locale, key).value
      else if Resolve(catalog, "en", key).Some? then Resolve(catalog, "en", key).value
      else key;
    FormatTemplate(text, values, show)
  }

  /** The fallback order of `t`, shown without values: the locale's text
      wins; English fills in what the locale lacks; a key found nowhere is
      shown as the key. */
  lemma Fallback(catalog: string -> map<string, TNode>, locale: string, key: string, show: Json -> string)
    ensures Resolve(catalog, locale, key).Some? ==> T(catalog, locale, key, None, show) == Resolve(catalog, locale, key).value
    ensures Resolve(catalog, locale, key).None? && Resolve(catalog, "en", key).Some? ==> T(catalog, locale, key, None, show) == Resolve(catalog, "en", key).value
    ensures Resolve(catalog, locale, key).None? && Resolve(catalog, "en", key).None? ==> T(catalog, locale, key, None, show) == key
  {
  }
}
