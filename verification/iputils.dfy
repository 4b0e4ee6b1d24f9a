/** IP normalisation shared by the access-control code: the IPv4-mapped IPv6
    marker `::ffff:` is dropped, and the two loopback addresses are
    recognised. */
module IpUtils {
  import opened Wrappers
  import opened Strs

  const MappedPrefix: string := "::ffff:"

  /** `normalizeIp`: a missing or empty address becomes `""`; otherwise the
      FIRST occurrence of `::ffff:`, wherever it is, is removed. */
  function NormalizeIp(raw: Option<string>): (r: string)
    ensures raw.None? || raw == Some("") ==> r == ""
    ensures raw.Some? && !Contains(raw.value, MappedPrefix) ==> r == raw.value
    ensures raw.Some? && Contains(raw.value, MappedPrefix) ==> |r| == |raw.value| - |MappedPrefix|
  {
    match raw
    case None => ""
    case Some(s) => if s == "" then "" else ReplaceFirst(s, MappedPrefix, "")
  }

  /** Normalisation of a present address removes exactly the first
      occurrence of the marker and keeps everything around it. */
  lemma NormalizeRemovesFirst(s: string, i: nat)
    requires i + |MappedPrefix| <= |s| && s[i..i + |MappedPrefix|] == MappedPrefix
    requires forall j :: 0 <= j < i ==> !StartsWith(s[j..], MappedPrefix)
    ensures NormalizeIp(Some(s)) == s[..i] + s[i + |MappedPrefix|..]
  {
    assert StartsWith(s[i..], MappedPrefix);
    ContainsAt(s, MappedPrefix);
    var k := IndexOf(s, MappedPrefix);
    if k.value < i {
      assert StartsWith(s[k.value..], MappedPrefix);
    }
    assert k == Some(i);
    assert s != "";
    assert NormalizeIp(Some(s)) == ReplaceFirst(s, MappedPrefix, "");
  }

  /** Normalisation is not idempotent: a second marker that the first
      removal uncovers or leaves behind is removed by a second call. */
  lemma NormalizeNotIdempotent()
    ensures NormalizeIp(Some("::ffff:::ffff:1")) == "::ffff:1"
    ensures NormalizeIp(Some(NormalizeIp(Some("::ffff:::ffff:1")))) == "1"
  {
    var s := "::ffff:::ffff:1";
    NormalizeRemovesFirst(s, 0);
    assert s[7..] == "::ffff:1";
    var t := "::ffff:1";
    NormalizeRemovesFirst(t, 0);
    assert t[..0] + t[7..] == "1";
  }

  /** `isLoopback`. */
  predicate IsLoopback(ip: string) {
    ip == "127.0.0.1" || ip == "::1"
  }
}
