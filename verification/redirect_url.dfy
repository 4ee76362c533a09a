/**
 * The StartPay redirect: the URL the customer is sent to after a payment
 * request, and the action that sends them there.
 */
module RedirectUrl {
  import opened Wrappers
  import opened PhpString
  import opened ClientConfig

  /** The bank PSPs a ZarinGate payment may be routed to directly. */
  const AllowedPsps: seq<string> := ["Asan", "Sep", "Sad", "Pec", "Fan", "Emz"]

  /** Which payment page the URL leads to. */
  datatype Portal =
    | Direct              // the ordinary StartPay page
    | ZarinGate           // the ZarinGate page, PSP chosen by the gateway
    | Psp(name: string)   // the ZarinGate page of one allowed PSP

  predicate ValidPortal(p: Portal) {
    p.Psp? ==> p.name in AllowedPsps
  }

  /** The portal the configuration selects, with the `trim` guard of the source kept. */
  function SelectPortal(c: Config): (p: Portal)
    ensures ValidPortal(p)
    ensures p.Psp? ==> p.name == c.zaringatePsp
    ensures p.Direct? <==> !c.zaringate
  {
    if c.zaringate && Trim(c.zaringatePsp) != "" && c.zaringatePsp in AllowedPsps then
      Psp(c.zaringatePsp)
    else if c.zaringate then
      ZarinGate
    else
      Direct
  }

  /** The last path segment naming a portal; the ordinary page has none. */
  function SegmentName(p: Portal): string {
    match p
    case Direct => ""
    case ZarinGate => "ZarinGate"
    case Psp(name) => name
  }

  /** What is appended after the authority: nothing, `/ZarinGate` or `/{psp}`. */
  function Suffix(p: Portal): string {
    if p.Direct? then "" else "/" + SegmentName(p)
  }

  /** Everything up to the authority; only the host differs between environments. */
  function Prefix(sandbox: bool): string {
    "https://" + (if sandbox then "sandbox" else "www") + ".zarinpal.com/pg/StartPay/"
  }

  /** The three things a StartPay URL encodes. */
  datatype StartPay = StartPay(sandbox: bool, authority: string, portal: Portal)

  function Render(sp: StartPay): string {
    Prefix(sp.sandbox) + sp.authority + Suffix(sp.portal)
  }

  /** The first position of `c` in `s`. */
  function IndexOf(s: string, c: char): (r: Option<nat>)
    ensures r.None? <==> c !in s
    ensures r.Some? ==> r.value < |s| && s[r.value] == c && c !in s[..r.value]
  {
    if |s| == 0 then None
    else if s[0] == c then Some(0)
    else
      match IndexOf(s[1..], c)
      case None => None
      case Some(i) =>
        assert s[..i + 1] == [s[0]] + s[1..][..i];
        Some(i + 1)
  }

  /** Reads a StartPay URL back; `None` for anything `Render` cannot produce. */
  function ParseRedirectUrl(url: string): Option<StartPay> {
    if Prefix(true) <= url then ParseTail(true, url[|Prefix(true)|..])
    else if Prefix(false) <= url then ParseTail(false, url[|Prefix(false)|..])
    else None
  }

  function ParseTail(sandbox: bool, rest: string): Option<StartPay> {
    match IndexOf(rest, '/')
    case None => Some(StartPay(sandbox, rest, Direct))
    case Some(i) =>
      match PortalOfSegment(rest[i + 1..])
      case None => None
      case Some(p) => Some(StartPay(sandbox, rest[..i], p))
  }

  /** The portal a trailing path segment names, if any. */
  function PortalOfSegment(tag: string): (r: Option<Portal>)
    ensures r.Some? ==> !r.value.Direct? && ValidPortal(r.value) && SegmentName(r.value) == tag
  {
    if tag == "ZarinGate" then Some(ZarinGate)
    else if tag in AllowedPsps then Some(Psp(tag))
    else None
  }

  /** `getRedirectUrl($authority)`. */
  function GetRedirectUrl(c: Config, authority: string): (url: string)
    ensures Prefix(c.sandbox) <= url
    ensures '/' !in authority ==>
              ParseRedirectUrl(url) == Some(StartPay(c.sandbox, authority, SelectPortal(c)))
  {
    var sp := StartPay(c.sandbox, authority, SelectPortal(c));
    assert '/' !in authority ==> ParseRedirectUrl(Render(sp)) == Some(sp) by {
      if '/' !in authority {
        ParseRender(sp);
      }
    }
    Render(sp)
  }

  /** An allowed PSP name is never blank, so the source's `trim` guard never decides anything. */
  lemma AllowedPspNotBlank(name: string)
    requires name in AllowedPsps
    ensures Trim(name) != ""
  {
    assert !IsTrimmed(name[0]);
    TrimEmptyIffBlank(name);
  }

  /**
   * The portal rule is total and unambiguous: exactly one of the three
   * outcomes applies, decided by the flag and allow-list membership alone.
   */
  lemma PortalRule(c: Config)
    ensures SelectPortal(c) == Direct <==> !c.zaringate
    ensures SelectPortal(c) == ZarinGate <==> c.zaringate && c.zaringatePsp !in AllowedPsps
    ensures SelectPortal(c) == Psp(c.zaringatePsp) <==> c.zaringate && c.zaringatePsp in AllowedPsps
  {
    if c.zaringatePsp in AllowedPsps {
      AllowedPspNotBlank(c.zaringatePsp);
    }
  }

  /** The URL spelled out: host by environment, then the authority, then the portal suffix. */
  lemma RedirectUrlShape(c: Config, authority: string)
    ensures GetRedirectUrl(c, authority) ==
              "https://" + (if c.sandbox then "sandbox" else "www") + ".zarinpal.com/pg/StartPay/"
              + authority
              + (if !c.zaringate then ""
                 else if c.zaringatePsp in AllowedPsps then "/" + c.zaringatePsp
                 else "/ZarinGate")
  {
    PortalRule(c);
  }

  lemma SlashFreeIndexOf(a: string, t: string)
    requires '/' !in a
    ensures IndexOf(a + "/" + t, '/') == Some(|a|)
  {
    var s := a + "/" + t;
    assert s[|a|] == '/';
    assert s[..|a|] == a;
  }

  /** The two hosts differ, so a URL starts with at most one of the two prefixes. */
  lemma ParsePrefixed(sandbox: bool, rest: string)
    ensures ParseRedirectUrl(Prefix(sandbox) + rest) == ParseTail(sandbox, rest)
  {
    var url := Prefix(sandbox) + rest;
    assert Prefix(sandbox) <= url;
    assert url[|Prefix(sandbox)|..] == rest;
    if !sandbox {
      assert url[8] == 'w' && Prefix(true)[8] == 's';
    }
  }

  /** The generic suffix cannot be mistaken for a PSP suffix. */
  lemma ZarinGateNotAPsp()
    ensures "ZarinGate" !in AllowedPsps
  {
    assert forall i :: 0 <= i < |AllowedPsps| ==> |AllowedPsps[i]| <= 4;
  }

  lemma PortalOfSegmentName(p: Portal)
    requires !p.Direct? && ValidPortal(p)
    ensures PortalOfSegment(SegmentName(p)) == Some(p)
  {
    ZarinGateNotAPsp();
  }

  lemma ParseTailSuffix(sandbox: bool, authority: string, portal: Portal)
    requires '/' !in authority
    requires ValidPortal(portal)
    ensures ParseTail(sandbox, authority + Suffix(portal)) == Some(StartPay(sandbox, authority, portal))
  {
    if portal.Direct? {
      assert authority + Suffix(portal) == authority;
    } else {
      var tag := SegmentName(portal);
      var rest := authority + "/" + tag;
      assert authority + Suffix(portal) == rest;
      SlashFreeIndexOf(authority, tag);
      assert rest[|authority| + 1..] == tag;
      assert rest[..|authority|] == authority;
      PortalOfSegmentName(portal);
    }
  }

  /** Parsing inverts rendering for every authority without a slash. */
  lemma ParseRender(sp: StartPay)
    requires '/' !in sp.authority
    requires ValidPortal(sp.portal)
    ensures ParseRedirectUrl(Render(sp)) == Some(sp)
  {
    var rest := sp.authority + Suffix(sp.portal);
    assert Render(sp) == Prefix(sp.sandbox) + rest;
    ParsePrefixed(sp.sandbox, rest);
    ParseTailSuffix(sp.sandbox, sp.authority, sp.portal);
  }

  lemma ParseTailRenders(sandbox: bool, rest: string, sp: StartPay)
    requires ParseTail(sandbox, rest) == Some(sp)
    ensures sp.sandbox == sandbox
    ensures sp.authority + Suffix(sp.portal) == rest
    ensures '/' !in sp.authority
    ensures ValidPortal(sp.portal)
  {
    match IndexOf(rest, '/')
    case None =>
    case Some(i) =>
      var tag := rest[i + 1..];
      assert PortalOfSegment(tag) == Some(sp.portal);
      assert Suffix(sp.portal) == "/" + tag;
      SplitAtSlash(rest, i);
  }

  lemma SplitAtSlash(s: string, i: nat)
    requires i < |s| && s[i] == '/'
    ensures s == s[..i] + ("/" + s[i + 1..])
  {
  }

  lemma ParseSplits(url: string, sp: StartPay)
    requires ParseRedirectUrl(url) == Some(sp)
    ensures Prefix(sp.sandbox) <= url
    ensures ParseTail(sp.sandbox, url[|Prefix(sp.sandbox)|..]) == Some(sp)
  {
    var sandbox := Prefix(true) <= url;
    assert Prefix(sandbox) <= url;
  }

  lemma RenderTail(url: string, sp: StartPay)
    requires Prefix(sp.sandbox) <= url
    requires ParseTail(sp.sandbox, url[|Prefix(sp.sandbox)|..]) == Some(sp)
    ensures Render(sp) == url
    ensures '/' !in sp.authority
    ensures ValidPortal(sp.portal)
  {
    var q := Prefix(sp.sandbox);
    var rest := url[|q|..];
    ParseTailRenders(sp.sandbox, rest, sp);
    AppendAssoc(q, sp.authority, Suffix(sp.portal));
    PrefixSplit(q, url);
  }

  lemma AppendAssoc(a: string, b: string, c: string)
    ensures a + (b + c) == a + b + c
  {
  }

  lemma PrefixSplit(q: string, s: string)
    requires q <= s
    ensures s == q + s[|q|..]
  {
  }

  /** Everything the parser accepts is a rendering of what it returns. */
  lemma RenderParse(url: string, sp: StartPay)
    requires ParseRedirectUrl(url) == Some(sp)
    ensures Render(sp) == url
    ensures '/' !in sp.authority
    ensures ValidPortal(sp.portal)
  {
    ParseSplits(url, sp);
    RenderTail(url, sp);
  }

  /** With the constructor's defaults the URL is the plain production StartPay page. */
  lemma DefaultRedirectUrl(merchantId: string, authority: string)
    ensures GetRedirectUrl(NewConfig(merchantId), authority) ==
              "https://www.zarinpal.com/pg/StartPay/" + authority
  {
  }

  /**
   * An authority containing a slash can collide with a PSP suffix: the same
   * URL comes from two different requests, so the round trip above needs its
   * slash-free precondition.
   */
  lemma SlashInAuthorityCollides(c: Config, authority: string, name: string)
    requires !c.zaringate
    requires name in AllowedPsps
    ensures GetRedirectUrl(c, authority + "/" + name) ==
            GetRedirectUrl(c.(zaringate := true, zaringatePsp := name), authority)
  {
    var c' := c.(zaringate := true, zaringatePsp := name);
    RedirectUrlShape(c, authority + "/" + name);
    RedirectUrlShape(c', authority);
    var q := Prefix(c.sandbox);
    assert GetRedirectUrl(c, authority + "/" + name) == q + (authority + "/" + name) + "";
    assert GetRedirectUrl(c', authority) == q + authority + ("/" + name);
    AppendAssoc(authority, "/", name);
    AppendAssoc(Prefix(c.sandbox), authority, "/" + name);
  }

  /** How `redirect($authority)` leaves the request. */
  datatype RedirectAction =
    | LaravelRedirect(url: string)           // `return redirect($url)`
    | LocationHeaderThenExit(url: string)    // `header('Location: ...'); exit`

  /** `redirect($authority)`: the Laravel helper or a raw header, always to the StartPay URL. */
  function Redirect(c: Config, authority: string): (a: RedirectAction)
    ensures a.url == GetRedirectUrl(c, authority)
    ensures a.LaravelRedirect? <==> c.laravel
  {
    var url := GetRedirectUrl(c, authority);
    if c.laravel then LaravelRedirect(url) else LocationHeaderThenExit(url)
  }
}
