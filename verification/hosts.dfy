/** Just enough URL and cookie-domain structure to relate the production
    cookie domain to the production origin: the host of a serialized origin
    `scheme://host[:port]`, and the domain-match rule of RFC 6265. */
module Hosts {
  import opened Wrappers

  const SchemeSeparator: string := "://"

  /** `s` holds the scheme separator starting at index `k`. */
  predicate SeparatorAt(s: string, k: int)
  {
    0 <= k && k + |SchemeSeparator| <= |s| && s[k..k + |SchemeSeparator|] == SchemeSeparator
  }

  /** The first index at or after `from` where the scheme separator starts. */
  function FindSeparator(s: string, from: nat): (r: Option<nat>)
    decreases |s| - from
    ensures r.Some? ==> from <= r.value && SeparatorAt(s, r.value)
    ensures r.Some? ==> forall k :: from <= k < r.value ==> !SeparatorAt(s, k)
    ensures r.None? ==> forall k :: from <= k ==> !SeparatorAt(s, k)
  {
    if from + |SchemeSeparator| > |s| then None
    else if SeparatorAt(s, from) then Some(from)
    else FindSeparator(s, from + 1)
  }

  /** A character that ends the host part of an origin: the port's colon or a
      path slash. */
  predicate IsHostDelimiter(c: char)
  {
    c == ':' || c == '/'
  }

  /** The end of the delimiter-free run of `s` that starts at `from`. */
  function HostEnd(s: string, from: nat): (r: nat)
    requires from <= |s|
    decreases |s| - from
    ensures from <= r <= |s|
    ensures forall k :: from <= k < r ==> !IsHostDelimiter(s[k])
    ensures r < |s| ==> IsHostDelimiter(s[r])
  {
    if from == |s| || IsHostDelimiter(s[from]) then from else HostEnd(s, from + 1)
  }

  /** The host of an origin: what follows the first scheme separator, up to
      the port or path. `None` when there is no scheme separator. */
  function HostOf(origin: string): (h: Option<string>)
    ensures h.None? <==> forall k :: !SeparatorAt(origin, k)
    ensures h.Some? ==> forall c :: c in h.value ==> !IsHostDelimiter(c)
    ensures h.Some? ==> exists k :: SeparatorAt(origin, k) && h.value <= origin[k + |SchemeSeparator|..]
  {
    match FindSeparator(origin, 0)
    case None => None
    case Some(i) =>
      var e := HostEnd(origin, i + |SchemeSeparator|);
      assert origin[i + |SchemeSeparator|..e] <= origin[i + |SchemeSeparator|..];
      Some(origin[i + |SchemeSeparator|..e])
  }

  /** If the first scheme separator starts at `i` and the delimiter-free run
      after it ends at `e`, the host is exactly the text between. */
  lemma HostOfCharacterized(s: string, i: nat, e: nat)
    requires SeparatorAt(s, i)
    requires forall k :: 0 <= k < i ==> !SeparatorAt(s, k)
    requires i + |SchemeSeparator| <= e <= |s|
    requires forall k :: i + |SchemeSeparator| <= k < e ==> !IsHostDelimiter(s[k])
    requires e < |s| ==> IsHostDelimiter(s[e])
    ensures HostOf(s) == Some(s[i + |SchemeSeparator|..e])
  {
  }

  /** The host of `scheme://host` followed by nothing or by a port or path
      is `host`, provided the scheme has no colon and the host no delimiter. */
  lemma HostOfComposed(scheme: string, host: string, tail: string)
    requires forall c :: c in scheme ==> c != ':'
    requires forall c :: c in host ==> !IsHostDelimiter(c)
    requires tail == [] || IsHostDelimiter(tail[0])
    ensures HostOf(scheme + SchemeSeparator + host + tail) == Some(host)
  {
    var s := scheme + SchemeSeparator + host + tail;
    var i := |scheme|;
    var e := i + |SchemeSeparator| + |host|;
    assert s[i..i + |SchemeSeparator|] == SchemeSeparator;
    forall k | 0 <= k < i
      ensures !SeparatorAt(s, k)
    {
      assert scheme[k] in scheme;
      assert s[k] == scheme[k] != ':';
      assert k + |SchemeSeparator| <= |s| ==> s[k..k + |SchemeSeparator|][0] == s[k];
    }
    forall k | i + |SchemeSeparator| <= k < e
      ensures !IsHostDelimiter(s[k])
    {
      assert host[k - i - |SchemeSeparator|] in host;
      assert s[k] == host[k - i - |SchemeSeparator|];
    }
    if tail != [] {
      assert s[e] == tail[0];
    }
    HostOfCharacterized(s, i, e);
    assert s[i + |SchemeSeparator|..e] == host;
  }

  /** The value a Domain attribute denotes: one leading dot is ignored
      (section 5.2.3 of RFC 6265). */
  function DomainAttributeValue(attr: string): (d: string)
    ensures |attr| > 0 && attr[0] == '.' ==> attr == "." + d
    ensures (|attr| == 0 || attr[0] != '.') ==> d == attr
  {
    if |attr| > 0 && attr[0] == '.' then attr[1..] else attr
  }

  /** `domain` is a suffix of `host`. */
  predicate IsSuffix(domain: string, host: string)
  {
    |domain| <= |host| && host[|host| - |domain|..] == domain
  }

  /** The domain-match rule of section 5.1.3 of RFC 6265 for a host name: the
      strings are identical, or the domain is a suffix of the host preceded in
      the host by a dot. */
  predicate DomainMatches(host: string, domain: string)
  {
    host == domain
    || (IsSuffix(domain, host) && |domain| < |host| && host[|host| - |domain| - 1] == '.')
  }

  /** A host one label below `domain` is covered by a cookie whose Domain
      attribute is `domain` with a leading dot: the attribute is a suffix of
      the host, and the host domain-matches the domain it denotes. */
  lemma SubdomainIsCovered(first: string, domain: string)
    ensures IsSuffix("." + domain, first + "." + domain)
    ensures DomainMatches(first + "." + domain, DomainAttributeValue("." + domain))
  {
  }
}
