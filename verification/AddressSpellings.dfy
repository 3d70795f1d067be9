/** The ways an address can be written, and that each of them is read as what it spells. */
module AddressSpellings {
  import opened Results
  import opened AppName
  import opened Addresses

  /** A letter and how else it can be written; two letters outside ASCII have one of ASCII as their lower case. */
  predicate IsCasedAs(c: char, lower: char) {
    || c == lower || ('A' <= c <= 'Z' && c as int + 32 == lower as int)
    || (c == '\U{212A}' && lower == 'k') || (c == '\U{130}' && lower == 'i')
  }

  /** The same text in any case. */
  predicate IsCased(spelled: string, text: string) {
    |spelled| == |text| && forall i | 0 <= i < |text| :: IsCasedAs(spelled[i], text[i])
  }

  /** An address in its parts: a scheme, a host that may have a dot behind it, and a port. */
  datatype Parts = Parts(scheme: Option<string>, host: string, dot: bool, port: Option<string>)

  function Front(host: string, dot: bool): string {
    if dot then host + "." else host
  }

  function Authority(p: Parts): string {
    match p.port
    case None => Front(p.host, p.dot)
    case Some(text) => Front(p.host, p.dot) + ":" + text
  }

  function Text(p: Parts): string {
    match p.scheme
    case None => Authority(p)
    case Some(s) => s + "://" + Authority(p)
  }

  predicate IsPort(text: string) {
    IsNumber(text) && 1 <= Number(text) <= 65535
  }

  /** The parts spell the host, with the scheme and the port in any of their forms. */
  predicate Spells(p: Parts, host: string, https: bool) {
    && IsHost(host) && IsCased(p.host, host) && (p.port.Some? ==> IsPort(p.port.value))
    && if p.scheme.Some? then IsCased(p.scheme.value, if https then "https" else "http") else https
  }

  /** HTTPS unless HTTP is given, or port 80 without any scheme; the default port of the scheme. */
  function Spelled(p: Parts, host: string, https: bool): Site
    requires p.port.Some? ==> IsPort(p.port.value)
  {
    var default := if https then 443 else 80;
    match p.port
    case None => Site(host, default, https)
    case Some(text) => Site(host, Number(text), https && (p.scheme.Some? || Number(text) != 80))
  }

  lemma CasedLowers(spelled: string, text: string)
    requires IsCased(spelled, text) && forall i | 0 <= i < |text| :: Lower(text[i]) == text[i]
    ensures ToLower(spelled) == text
  {
    forall i | 0 <= i < |text| ensures Lower(spelled[i]) == text[i] {
      assert IsCasedAs(spelled[i], text[i]);
    }
  }

  lemma LowerIsCased(spelled: string)
    ensures IsCased(spelled, ToLower(spelled))
  {
  }

  predicate IsCasedChar(c: char) {
    IsHostChar(c) || 'A' <= c <= 'Z' || c == '\U{212A}' || c == '\U{130}'
  }

  predicate CasedText(text: string) {
    forall i | 0 <= i < |text| :: IsCasedChar(text[i])
  }

  lemma CasedChars(spelled: string, host: string)
    requires IsHost(host) && IsCased(spelled, host)
    ensures spelled != "" && spelled[|spelled| - 1] != '.' && CasedText(spelled)
  {
    HostChars(host);
    assert IsCasedAs(spelled[|spelled| - 1], host[|host| - 1]);
    forall i | 0 <= i < |spelled| ensures IsCasedChar(spelled[i]) {
      assert IsCasedAs(spelled[i], host[i]) && IsHostChar(host[i]);
    }
  }

  lemma CasedFront(spelled: string, dot: bool)
    requires spelled != "" && spelled[|spelled| - 1] != '.' && CasedText(spelled)
    ensures CasedText(Front(spelled, dot)) && Front(spelled, dot) != "" && TrimDot(Front(spelled, dot)) == spelled
  {
    assert dot ==> (spelled + ".")[..|spelled|] == spelled;
  }

  lemma HostLowers(spelled: string, host: string)
    requires IsHost(host) && IsCased(spelled, host)
    ensures ToLower(spelled) == host
  {
    HostChars(host);
    assert forall i | 0 <= i < |host| :: IsHostChar(host[i]);
    CasedLowers(spelled, host);
  }

  /** A host as it may stand before a port: in any case, with or without a dot. */
  lemma FrontIsHost(spelled: string, host: string, dot: bool)
    requires IsHost(host) && IsCased(spelled, host)
    ensures ToLower(TrimDot(Front(spelled, dot))) == host && CasedText(Front(spelled, dot))
    ensures Front(spelled, dot) != ""
  {
    CasedChars(spelled, host);
    HostLowers(spelled, host);
    CasedFront(spelled, dot);
  }

  lemma NoColonIn(text: string)
    requires CasedText(text)
    ensures LastColon(text, |text|) == -1
  {
  }

  lemma FrontParses(front: string, host: string, https: bool, explicit: bool)
    requires IsHost(host) && ToLower(TrimDot(front)) == host && CasedText(front)
    ensures ParseAuthority(front, https, explicit) == Some(Site(host, if https then 443 else 80, https))
  {
    NoColonIn(front);
  }

  lemma FrontWithPortParses(front: string, host: string, text: string, https: bool, explicit: bool)
    requires IsHost(host) && ToLower(TrimDot(front)) == host && IsPort(text)
    ensures ParseAuthority(front + ":" + text, https, explicit) ==
            Some(Site(host, Number(text), https && (explicit || Number(text) != 80)))
  {
    var all := front + ":" + text;
    assert forall i | 0 <= i < |text| :: IsDigit(text[i]);
    ColonBetween(front, text);
    assert all[..|front|] == front && all[|front| + 1..] == text;
  }

  lemma AuthorityParses(p: Parts, host: string, https: bool)
    requires Spells(p, host, https)
    ensures ParseAuthority(Authority(p), https, p.scheme.Some?) == Some(Spelled(p, host, https))
  {
    FrontIsHost(p.host, host, p.dot);
    match p.port
    case None => FrontParses(Front(p.host, p.dot), host, https, p.scheme.Some?);
    case Some(text) => FrontWithPortParses(Front(p.host, p.dot), host, text, https, p.scheme.Some?);
  }

  /** Such characters and colons. */
  predicate PlainText(text: string) {
    forall i | 0 <= i < |text| :: IsCasedChar(text[i]) || text[i] == ':'
  }

  lemma PortIsPlainText(text: string)
    requires IsNumber(text)
    ensures PlainText(text)
  {
    assert forall i | 0 <= i < |text| :: IsDigit(text[i]);
  }

  lemma PlainTextJoins(a: string, b: string)
    requires PlainText(a) && PlainText(b)
    ensures PlainText(a + ":" + b)
  {
  }

  lemma CharsArePlain(text: string)
    requires PlainText(text)
    ensures !Forbidden(text) && !HasScheme(text)
  {
  }

  lemma AuthorityIsPlain(p: Parts, host: string)
    requires IsHost(host) && IsCased(p.host, host) && (p.port.Some? ==> IsPort(p.port.value))
    ensures Authority(p) != "" && !Forbidden(Authority(p)) && !HasScheme(Authority(p))
  {
    var front := Front(p.host, p.dot);
    FrontIsHost(p.host, host, p.dot);
    assert PlainText(front);
    match p.port
    case None => CharsArePlain(front);
    case Some(text) =>
      PortIsPlainText(text);
      PlainTextJoins(front, text);
      CharsArePlain(front + ":" + text);
  }

  /** Every spelling of an address is read as what it spells. */
  lemma SpellingParses(p: Parts, host: string, https: bool)
    requires Spells(p, host, https)
    ensures ParseSite(Text(p)) == Some(Spelled(p, host, https))
  {
    AuthorityIsPlain(p, host);
    AuthorityParses(p, host, https);
    match p.scheme
    case None =>
    case Some(s) => CasedSchemeParses(s, https, Authority(p));
  }

  lemma CasedSchemeParses(scheme: string, https: bool, authority: string)
    requires IsCased(scheme, if https then "https" else "http") && authority != "" && !Forbidden(authority)
    ensures ParseSite(scheme + "://" + authority) == ParseAuthority(authority, https, true)
  {
    CasedSchemeIsPlain(scheme, https);
    SchemeIsFound(scheme, authority);
    PlainFront(scheme, authority);
  }

  lemma CasedSchemeIsPlain(scheme: string, https: bool)
    requires IsCased(scheme, if https then "https" else "http")
    ensures ToLower(scheme) == (if https then "https" else "http")
    ensures CasedText(scheme) && forall i | 0 <= i < |scheme| :: scheme[i] != ':'
  {
    var text := if https then "https" else "http";
    CasedLowers(scheme, text);
    forall i | 0 <= i < |scheme| ensures IsCasedChar(scheme[i]) && scheme[i] != ':' {
      assert IsCasedAs(scheme[i], text[i]);
    }
  }

  lemma PlainFront(scheme: string, authority: string)
    requires !Forbidden(authority) && CasedText(scheme)
    ensures !Forbidden(scheme + "://" + authority)
  {
    var n := |scheme|;
    var value := scheme + "://" + authority;
    assert forall i | n + 3 <= i < |value| :: value[i] == authority[i - n - 3];
    assert forall i | 0 <= i < n :: value[i] == scheme[i];
  }

  lemma FrontOf(front: string) returns (dot: bool)
    ensures front == Front(TrimDot(front), dot)
  {
    dot := front != "" && front[|front| - 1] == '.';
  }

  /** What is read as a host and a port is written as one. */
  lemma AuthorityOf(authority: string, scheme: Option<string>, https: bool) returns (p: Parts)
    requires ParseAuthority(authority, https, scheme.Some?).Some?
    ensures p.scheme == scheme && Authority(p) == authority
    ensures var host := ParseAuthority(authority, https, scheme.Some?).value.host;
            IsHost(host) && IsCased(p.host, host) && (p.port.Some? ==> IsPort(p.port.value))
  {
    var k := LastColon(authority, |authority|);
    var front := if k < 0 then authority else authority[..k];
    var dot := FrontOf(front);
    LowerIsCased(TrimDot(front));
    p := Parts(scheme, TrimDot(front), dot, if k < 0 then None else Some(authority[k + 1..]));
    assert k >= 0 ==> authority == authority[..k] + ":" + authority[k + 1..];
  }

  lemma CutsAtScheme(value: string, k: nat)
    requires k <= |value| && "://" <= value[k..]
    ensures value == value[..k] + "://" + value[k + 3..]
  {
    assert value[k..k + 3] == value[k..][..3] == "://";
  }

  /** What is read as a site spells it. */
  lemma ParsedIsSpelled(value: string) returns (p: Parts, https: bool)
    requires ParseSite(value).Some?
    ensures Spells(p, ParseSite(value).value.host, https) && Text(p) == value
  {
    if !HasScheme(value) {
      https := true;
      p := AuthorityOf(value, None, true);
    } else {
      var k := FirstColon(value, 0);
      https := ToLower(value[..k]) == "https";
      LowerIsCased(value[..k]);
      p := AuthorityOf(value[k + 3..], Some(value[..k]), https);
      CutsAtScheme(value, k);
    }
  }

  /** Exactly the spellings of a site are read, as that site. */
  lemma ParseIff(value: string, site: Site)
    ensures ParseSite(value) == Some(site) <==>
      exists p, https :: Spells(p, site.host, https) && Text(p) == value && Spelled(p, site.host, https) == site
  {
    if ParseSite(value) == Some(site) {
      var p, https := ParsedIsSpelled(value);
      SpellingParses(p, site.host, https);
    }
    if exists p, https :: Spells(p, site.host, https) && Text(p) == value && Spelled(p, site.host, https) == site {
      var p, https :| Spells(p, site.host, https) && Text(p) == value && Spelled(p, site.host, https) == site;
      SpellingParses(p, site.host, https);
    }
  }

  /** The canonical text and the public key of every spelling: what is default is left out of the text only. */
  lemma SpellingIsCanonical(p: Parts, host: string, https: bool)
    requires Spells(p, host, https)
    ensures var number := if p.port.Some? then Number(p.port.value) else if https then 443 else 80;
            var secure := https && (p.scheme.Some? || number != 80);
      && PublicAddressKey(Text(p)) == Some(host + ":" + Decimal(number))
      && CanonicalAddress(Text(p)) == Some(
           if secure && number == 443 then host
           else if !secure && number == 80 then "http://" + host
           else (if secure then "https://" else "http://") + host + ":" + Decimal(number))
  {
    SpellingParses(p, host, https);
    CanonicalIsStable(Text(p));
    RenderIsCaddySite(Spelled(p, host, https));
  }

  // ---------- hosts ----------

  /** A stretch of the text from its begin or a dot to a dot or its end. */
  predicate IsLabel(text: string, i: nat, j: nat) {
    && i <= j <= |text|
    && (i == 0 || text[i - 1] == '.') && (j == |text| || text[j] == '.')
    && (forall k | i <= k < j :: text[k] != '.')
  }

  /** 1 to 63 letters, digits and dashes, with no dash at either end. */
  predicate IsSafeStretch(text: string, i: nat, j: nat) {
    && i < j <= |text| && j - i <= 63 && text[i] != '-' && text[j - 1] != '-'
    && forall k | i <= k < j :: 'a' <= text[k] <= 'z' || '0' <= text[k] <= '9' || text[k] == '-'
  }

  ghost predicate LabelsAreSafe(text: string) {
    forall i: nat, j: nat | IsLabel(text, i, j) :: IsSafeStretch(text, i, j)
  }

  lemma LabelIsSafe(text: string, i: nat, j: nat)
    requires i <= j <= |text|
    ensures IsDNSLabelSafe(text[i..j]) <==> IsSafeStretch(text, i, j)
  {
    var part := text[i..j];
    assert forall k | i <= k < j :: text[k] == part[k - i];
    assert forall k | 0 <= k < |part| :: part[k] == text[k + i];
  }

  lemma LaterStretch(text: string, n: nat, i: nat, j: nat)
    requires n <= |text|
    ensures IsSafeStretch(text[n..], i, j) <==> IsSafeStretch(text, n + i, n + j)
  {
    var rest := text[n..];
    assert forall k | 0 <= k < |rest| :: rest[k] == text[n + k];
    assert forall k | n <= k < |text| :: text[k] == rest[k - n];
  }

  lemma FirstLabel(text: string, i: nat, j: nat)
    requires i <= Dot(text, 0)
    ensures IsLabel(text, i, j) <==> i == 0 && j == Dot(text, 0)
  {
    NoDotBefore(text, 0);
  }

  lemma {:induction false} NoDotBefore(text: string, i: nat)
    requires i <= |text|
    ensures forall k | i <= k < Dot(text, i) :: text[k] != '.'
    decreases |text| - i
  {
    if i < |text| && text[i] != '.' {
      NoDotBefore(text, i + 1);
    }
  }

  lemma LaterLabel(text: string, first: nat, i: nat, j: nat)
    requires first < |text| && text[first] == '.' && first < i
    ensures IsLabel(text, i, j) <==> j > first && IsLabel(text[first + 1..], i - first - 1, j - first - 1)
  {
  }

  /** A name is accepted exactly if each of its labels is. */
  lemma {:induction false} NameIff(text: string)
    ensures IsName(text) <==> LabelsAreSafe(text)
    decreases |text|
  {
    var first := Dot(text, 0);
    FirstLabel(text, 0, first);
    LabelIsSafe(text, 0, first);
    assert text[0..first] == text[..first];
    if first == |text| {
      assert text[..first] == text && Labels(text) == [text];
      forall i: nat, j: nat | IsLabel(text, i, j) ensures i == 0 && j == first {
        FirstLabel(text, i, j);
      }
    } else {
      var rest := text[first + 1..];
      NameIff(rest);
      NameOfTwo(text, first);
      LabelsOfTwo(text, first);
    }
  }

  lemma NameOfTwo(text: string, first: nat)
    requires first == Dot(text, 0) && first < |text|
    ensures IsName(text) <==> IsDNSLabelSafe(text[..first]) && IsName(text[first + 1..])
  {
    var rest := Labels(text[first + 1..]);
    assert Labels(text) == [text[..first]] + rest;
    assert forall part :: part in Labels(text) <==> part == text[..first] || part in rest;
  }

  lemma LabelsOfTwo(text: string, first: nat)
    requires first == Dot(text, 0) && first < |text|
    ensures LabelsAreSafe(text) <==> IsSafeStretch(text, 0, first) && LabelsAreSafe(text[first + 1..])
  {
    var rest := text[first + 1..];
    FirstLabel(text, 0, first);
    if LabelsAreSafe(text) {
      forall i: nat, j: nat | IsLabel(rest, i, j) ensures IsSafeStretch(rest, i, j) {
        LaterLabel(text, first, first + 1 + i, first + 1 + j);
        LaterStretch(text, first + 1, i, j);
      }
    }
    if IsSafeStretch(text, 0, first) && LabelsAreSafe(rest) {
      forall i: nat, j: nat | IsLabel(text, i, j) ensures IsSafeStretch(text, i, j) {
        OneOfTwo(text, first, i, j);
      }
    }
  }

  lemma OneOfTwo(text: string, first: nat, i: nat, j: nat)
    requires first == Dot(text, 0) && first < |text| && IsLabel(text, i, j)
    requires IsSafeStretch(text, 0, first) && LabelsAreSafe(text[first + 1..])
    ensures IsSafeStretch(text, i, j)
  {
    if i <= first {
      FirstLabel(text, i, j);
    } else {
      LaterLabel(text, first, i, j);
      assert IsLabel(text[first + 1..], i - first - 1, j - first - 1);
      LaterStretch(text, first + 1, i - first - 1, j - first - 1);
    }
  }

  /** A host is a name of at most 253 characters, perhaps with a wildcard for its first label. */
  lemma HostIff(host: string)
    ensures IsHost(host) <==>
      1 <= |host| <= 253 && LabelsAreSafe(if |host| >= 2 && host[0] == '*' && host[1] == '.' then host[2..] else host)
  {
    NameIff(host);
    if |host| >= 2 {
      NameIff(host[2..]);
      assert host[..2] == [host[0], host[1]];
    }
  }
}
