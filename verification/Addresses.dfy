/**
 Public addresses: what a route is known under. URL parsing is a small grammar of scheme,
 host and port; IPv6 literals and percent-encoded hosts are not part of it.
*/
module Addresses {
  import opened Results
  import opened AppName

  const MAX_HOST: nat := 253
  const MAX_PORT: nat := 65535

  // ---------- numbers ----------

  predicate IsDigit(c: char) {
    '0' <= c <= '9'
  }

  predicate IsNumber(s: string) {
    s != "" && forall i | 0 <= i < |s| :: IsDigit(s[i])
  }

  function Number(s: string): nat
    requires forall i | 0 <= i < |s| :: IsDigit(s[i])
  {
    if s == "" then 0 else assert IsDigit(s[|s| - 1]); Number(s[..|s| - 1]) * 10 + (s[|s| - 1] as int - '0' as int)
  }

  function Decimal(n: nat): string {
    if n < 10 then [(n + '0' as int) as char] else Decimal(n / 10) + [(n % 10 + '0' as int) as char]
  }

  lemma {:induction false} DecimalIsNumber(n: nat)
    ensures IsNumber(Decimal(n)) && Number(Decimal(n)) == n
  {
    if n < 10 {
      assert Decimal(n)[..0] == "";
    } else {
      DecimalIsNumber(n / 10);
      assert Decimal(n)[..|Decimal(n)| - 1] == Decimal(n / 10);
    }
  }

  // ---------- hosts ----------

  function Labels(s: string): seq<string>
    decreases |s|
  {
    var k := Dot(s, 0);
    if k == |s| then [s] else [s[..k]] + Labels(s[k + 1..])
  }

  /** The position of the first dot from `i` on, or the length. */
  function Dot(s: string, i: nat): (k: nat)
    requires i <= |s|
    ensures i <= k <= |s| && (k < |s| ==> s[k] == '.')
    decreases |s| - i
  {
    if i == |s| || s[i] == '.' then i else Dot(s, i + 1)
  }

  predicate IsName(host: string) {
    forall part | part in Labels(host) :: IsDNSLabelSafe(part)
  }

  /** A host name in lower case, perhaps with a wildcard for its first label. */
  predicate IsHost(host: string) {
    host != "" && |host| <= MAX_HOST && IsName(if "*." <= host then host[2..] else host)
  }

  predicate IsHostChar(c: char) {
    IsAlphanumeric(c) || c == '-' || c == '.' || c == '*'
  }

  lemma {:induction false} NameChars(s: string)
    requires IsName(s)
    ensures s != "" && s[|s| - 1] != '.' && forall i | 0 <= i < |s| :: IsHostChar(s[i])
    decreases |s|
  {
    var k := Dot(s, 0);
    if k == |s| {
      assert s in Labels(s);
    } else {
      assert s[..k] in Labels(s);
      assert IsDNSLabelSafe(s[..k]);
      forall part | part in Labels(s[k + 1..]) ensures IsDNSLabelSafe(part) {
        assert part in Labels(s);
      }
      NameChars(s[k + 1..]);
      assert s == s[..k] + [s[k]] + s[k + 1..];
    }
  }

  lemma HostChars(host: string)
    requires IsHost(host)
    ensures host[|host| - 1] != '.' && forall i | 0 <= i < |host| :: IsHostChar(host[i])
  {
    if "*." <= host {
      NameChars(host[2..]);
      assert host == "*." + host[2..];
    } else {
      NameChars(host);
    }
  }

  lemma HostIsLower(host: string)
    requires forall i | 0 <= i < |host| :: IsHostChar(host[i])
    ensures ToLower(host) == host
  {
    assert forall i | 0 <= i < |host| :: Lower(host[i]) == host[i];
  }

  lemma HostIsPlain(host: string)
    requires forall i | 0 <= i < |host| :: IsHostChar(host[i])
    ensures !Forbidden(host) && LastColon(host, |host|) == -1
  {
  }

  lemma HostStays(host: string)
    requires IsHost(host)
    ensures ToLower(TrimDot(host)) == host && !Forbidden(host) && LastColon(host, |host|) == -1
  {
    HostChars(host);
    HostIsLower(host);
    HostIsPlain(host);
    assert TrimDot(host) == host;
  }

  function TrimDot(s: string): string {
    if s != "" && s[|s| - 1] == '.' then s[..|s| - 1] else s
  }

  // ---------- addresses ----------

  /** What an address stands for. */
  datatype Site = Site(host: string, port: nat, https: bool)

  predicate IsControl(c: char) {
    c as int < 0x20 || 0x7F <= c as int <= 0x9F
  }

  /** Queries, fragments, white space and control characters have no place in an address. */
  predicate Forbidden(s: string) {
    exists i | 0 <= i < |s| :: s[i] == '?' || s[i] == '#' || IsSpace(s[i]) || IsControl(s[i])
  }

  predicate HasScheme(s: string) {
    exists i | 0 <= i <= |s| - 3 :: s[i] == ':' && s[i + 1] == '/' && s[i + 2] == '/'
  }

  /** The first colon from `i` on, or the length. */
  function FirstColon(s: string, i: nat): (k: nat)
    requires i <= |s|
    ensures i <= k <= |s| && (k < |s| ==> s[k] == ':') && forall j | i <= j < k :: s[j] != ':'
    decreases |s| - i
  {
    if i == |s| || s[i] == ':' then i else FirstColon(s, i + 1)
  }

  /** The last colon among the first `n` characters, or -1. */
  function LastColon(s: string, n: nat): (k: int)
    requires n <= |s|
    ensures -1 <= k < n && (k >= 0 ==> s[k] == ':') && forall j | k < j < n :: s[j] != ':'
  {
    if n == 0 then -1 else if s[n - 1] == ':' then n - 1 else LastColon(s, n - 1)
  }

  function DefaultPort(https: bool): nat {
    if https then 443 else 80
  }

  /** Host and port of an authority; port 80 without a scheme means plain HTTP. */
  function ParseAuthority(authority: string, https: bool, explicit: bool): Option<Site> {
    var k := LastColon(authority, |authority|);
    var host := ToLower(TrimDot(if k < 0 then authority else authority[..k]));
    if !IsHost(host) then None
    else if k < 0 then Some(Site(host, DefaultPort(https), https))
    else
      var text := authority[k + 1..];
      if !IsNumber(text) || !(1 <= Number(text) <= MAX_PORT) then None
      else Some(Site(host, Number(text), https && (explicit || Number(text) != 80)))
  }

  function ParseSite(value: string): Option<Site> {
    if value == "" || Forbidden(value) then None
    else if !HasScheme(value) then ParseAuthority(value, true, false)
    else
      var k := FirstColon(value, 0);
      if !("://" <= value[k..]) then None
      else
        var scheme := ToLower(value[..k]);
        if scheme == "http" then ParseAuthority(value[k + 3..], false, true)
        else if scheme == "https" then ParseAuthority(value[k + 3..], true, true)
        else None
  }

  function Scheme(https: bool): string {
    if https then "https" else "http"
  }

  /** The canonical text: what is default is left out. */
  function Render(site: Site): string {
    var address := if site.port == DefaultPort(site.https) then site.host else site.host + ":" + Decimal(site.port);
    if !site.https || site.port != 443 then Scheme(site.https) + "://" + address else address
  }

  function CanonicalAddress(value: string): Option<string> {
    match ParseSite(value)
    case None => None
    case Some(site) => Some(Render(site))
  }

  /** Host and port: two addresses with the same key cannot both be served. */
  function Key(site: Site): string {
    site.host + ":" + Decimal(site.port)
  }

  /** The key is read off the canonical address. */
  function PublicAddressKey(value: string): Option<string> {
    match CanonicalAddress(value)
    case None => None
    case Some(address) =>
      match ParseSite(address)
      case None => None
      case Some(site) => Some(Key(site))
  }

  /** The address of a site Caddy serves, from the parts of its active configuration. */
  function CaddySiteAddress(host: string, listenPort: nat, https: bool): string {
    if https && listenPort == 443 then host
    else if !https && listenPort == 80 then "http://" + host
    else (if https then "https://" else "http://") + host + ":" + Decimal(listenPort)
  }

  // ---------- what canonical addresses are like ----------

  predicate IsSite(site: Site) {
    IsHost(site.host) && 1 <= site.port <= MAX_PORT
  }

  lemma ParsedIsSite(value: string)
    requires ParseSite(value).Some?
    ensures IsSite(ParseSite(value).value)
  {
  }

  lemma AuthorityWithPort(host: string, port: nat, https: bool, explicit: bool)
    requires IsHost(host) && 1 <= port <= MAX_PORT
    ensures ParseAuthority(host + ":" + Decimal(port), https, explicit) ==
            Some(Site(host, port, https && (explicit || port != 80)))
  {
    HostStays(host);
    DecimalIsNumber(port);
    var text := Decimal(port);
    var authority := host + ":" + text;
    ColonBetween(host, text);
    assert authority[..|host|] == host && authority[|host| + 1..] == text;
  }

  lemma ColonBetween(host: string, text: string)
    requires forall i | 0 <= i < |text| :: text[i] != ':'
    ensures LastColon(host + ":" + text, |host + ":" + text|) == |host|
  {
    var all := host + ":" + text;
    assert all[|host|] == ':';
    assert forall i | |host| < i < |all| :: all[i] == text[i - |host| - 1];
  }

  lemma AuthorityWithoutPort(host: string, https: bool, explicit: bool)
    requires IsHost(host)
    ensures ParseAuthority(host, https, explicit) == Some(Site(host, DefaultPort(https), https))
  {
    HostStays(host);
  }

  lemma SchemeIsFound(scheme: string, authority: string)
    requires forall i | 0 <= i < |scheme| :: scheme[i] != ':'
    ensures var value := scheme + "://" + authority;
            HasScheme(value) && FirstColon(value, 0) == |scheme| && value[..|scheme|] == scheme
            && "://" <= value[|scheme|..] && value[|scheme| + 3..] == authority
  {
    var value := scheme + "://" + authority;
    var n := |scheme|;
    assert value[n] == ':' && value[n + 1] == '/' && value[n + 2] == '/';
    assert forall i | 0 <= i < n :: value[i] == scheme[i];
    assert value[n..][..3] == "://";
  }

  lemma SchemeIsPlain(https: bool, authority: string)
    requires !Forbidden(authority)
    ensures !Forbidden(Scheme(https) + "://" + authority) && ToLower(Scheme(https)) == Scheme(https)
  {
    var n := |Scheme(https)|;
    var value := Scheme(https) + "://" + authority;
    assert forall i | n + 3 <= i < |value| :: value[i] == authority[i - n - 3];
  }

  lemma SchemeParses(https: bool, authority: string)
    requires authority != "" && !Forbidden(authority)
    ensures ParseSite(Scheme(https) + "://" + authority) == ParseAuthority(authority, https, true)
  {
    SchemeIsFound(Scheme(https), authority);
    SchemeIsPlain(https, authority);
  }

  lemma PlainParses(host: string)
    requires IsHost(host)
    ensures ParseSite(host) == Some(Site(host, 443, true))
  {
    HostChars(host);
    HostStays(host);
    AuthorityWithoutPort(host, true, false);
  }

  lemma PortIsPlain(host: string, port: nat)
    requires IsHost(host)
    ensures !Forbidden(host + ":" + Decimal(port))
  {
    HostChars(host);
    DecimalIsNumber(port);
    var all := host + ":" + Decimal(port);
    assert forall i | 0 <= i < |all| :: IsHostChar(all[i]) || all[i] == ':';
  }

  /** A rendered address parses back to what it was rendered from. */
  lemma RenderParses(site: Site)
    requires IsSite(site)
    ensures ParseSite(Render(site)) == Some(site)
  {
    HostStays(site.host);
    if site.https && site.port == 443 {
      PlainParses(site.host);
    } else if site.port == DefaultPort(site.https) {
      SchemeParses(site.https, site.host);
      AuthorityWithoutPort(site.host, site.https, true);
    } else {
      PortIsPlain(site.host, site.port);
      SchemeParses(site.https, site.host + ":" + Decimal(site.port));
      AuthorityWithPort(site.host, site.port, site.https, true);
    }
  }

  /** Canonical addresses are their own canonical form, stand for the same site and have the same key. */
  lemma CanonicalIsStable(value: string)
    requires CanonicalAddress(value).Some?
    ensures var address := CanonicalAddress(value).value;
      && ParseSite(address) == ParseSite(value)
      && CanonicalAddress(address) == Some(address)
      && PublicAddressKey(address) == PublicAddressKey(value) == Some(Key(ParseSite(value).value))
  {
    ParsedIsSite(value);
    RenderParses(ParseSite(value).value);
  }

  lemma KeyIsHostAndPort(a: Site, b: Site)
    requires IsSite(a) && IsSite(b)
    ensures Key(a) == Key(b) <==> a.host == b.host && a.port == b.port
  {
    if Key(a) == Key(b) {
      AuthorityWithPort(a.host, a.port, true, true);
      AuthorityWithPort(b.host, b.port, true, true);
    }
  }

  /** Two addresses have the same canonical form exactly if they stand for the same site. */
  lemma CanonicalIffSameSite(a: string, b: string)
    requires ParseSite(a).Some? && ParseSite(b).Some?
    ensures CanonicalAddress(a) == CanonicalAddress(b) <==> ParseSite(a) == ParseSite(b)
  {
    CanonicalIsStable(a);
    CanonicalIsStable(b);
  }

  lemma RenderIsCaddySite(site: Site)
    ensures Render(site) == CaddySiteAddress(site.host, site.port, site.https)
  {
    var text := Decimal(site.port);
    assert "https" + "://" == "https://" && "http" + "://" == "http://";
    assert Scheme(site.https) + "://" + (site.host + ":" + text) == Scheme(site.https) + "://" + site.host + ":" + text;
  }

  /** From host, port and scheme of a canonical address, its text is rebuilt. */
  lemma CaddyRebuildsCanonical(value: string, address: string, site: Site)
    requires CanonicalAddress(value) == Some(address) && ParseSite(address) == Some(site)
    ensures CaddySiteAddress(site.host, site.port, site.https) == address
  {
    CanonicalIsStable(value);
    RenderIsCaddySite(site);
  }
}
