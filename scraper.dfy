/** Contact extraction of src/services/scraper.ts, with the browser and the regular expressions
    replaced by their results: the match lists of each page and the links found on it. */
module Scraper {
  import opened Wrappers
  import opened Strings
  import opened Lists
  import opened Errors
  import opened Types
  import opened BrowserSession

  const FreeMailDomains: seq<string> :=
    ["gmail.com", "yahoo.com", "hotmail.com", "outlook.com", "live.com", "msn.com", "aol.com", "icloud.com"]
  const BlockedResourceTypes: seq<string> := ["image", "stylesheet", "font", "media"]
  const ContactKeywords: seq<string> :=
    ["contacto", "contact", "nosotros", "about", "empresa", "company", "ubicacion", "location", "direccion", "address"]
  const MaxEmails := 3
  const MaxPhones := 3
  const MinPhoneLength := 8
  const MaxAddressLength := 200
  const MaxContactUrls := 5
  const MaxContactPages := 3

  /** What the regular expressions find on one loaded page: the email matches on the HTML, the
      matches of each of the four phone patterns on the HTML, and the matches of each of the two
      address patterns on the lower-cased body text (an empty list standing for `null`). */
  datatype PageMatches = PageMatches(emails: seq<string>, phones: seq<seq<string>>, addresses: seq<seq<string>>)

  /** An `a[href]` element: its resolved `href` and its text (`''` when it has none). */
  datatype Anchor = Anchor(href: string, text: string)

  /** What `findContactUrls` reads from the page: the origin of `page.url()` and the anchors. */
  datatype LinkScan = LinkScan(origin: string, anchors: seq<Anchor>)

  /** The browser's answers while one site is scraped:
      `pageError`: the rejection of `browser.newPage()`, if any;
      `primary`: loading the given URL (page setup, `goto`, `content`);
      `links`: the link scan of the loaded page (`page.url()`, `new URL`, `page.evaluate`);
      `visit`: loading one contact page (`goto`, `content`). */
  datatype Site = Site(
    pageError: Option<Thrown>,
    primary: Completion<PageMatches>,
    links: Completion<LinkScan>,
    visit: string -> Completion<PageMatches>)

  // ---------------------------------------------------------------- request filtering

  /** The request handler installed by `setupScrapingPage` aborts exactly these resource types. */
  predicate ShouldBlock(resourceType: string)
    ensures ShouldBlock(resourceType) <==>
      resourceType == "image" || resourceType == "stylesheet" || resourceType == "font" || resourceType == "media"
  {
    resourceType in BlockedResourceTypes
  }

  // ---------------------------------------------------------------- emails

  /** `email.split('@')[1]?.toLowerCase()`: the lower-cased text between the first `@` and the next one. */
  function EmailDomain(email: string): (d: Option<string>)
    ensures d.None? <==> '@' !in email
    ensures d.Some? ==> '@' !in d.value
    ensures d.Some? ==> exists i, j :: DomainSpan(email, i, j, d.value)
  {
    var at := IndexOfChar(email, '@');
    if at < 0 then None
    else
      var part := UpTo(email[at + 1..], '@');
      var j := at + 1 + |part|;
      assert email[at + 1..j] == part;
      assert DomainSpan(email, at, j, ToLower(part));
      assert forall i :: 0 <= i < |ToLower(part)| ==> ToLower(part)[i] != '@';
      Some(ToLower(part))
  }

  /** `email[i]` is the first `@`, `email[j]` the next one (or `j` is the end), and `domain` is the
      lower-cased text between them. */
  predicate DomainSpan(email: string, i: int, j: int, domain: string) {
    && 0 <= i < j <= |email|
    && email[i] == '@' && '@' !in email[..i] && '@' !in email[i + 1..j]
    && (j == |email| || email[j] == '@')
    && domain == ToLower(email[i + 1..j])
  }

  /** `isValidBusinessEmail`: there is a domain part, it is not empty and it is not a free mail provider. */
  predicate IsValidBusinessEmail(email: string)
    ensures IsValidBusinessEmail(email) ==> '@' in email
  {
    var d := EmailDomain(email);
    d.Some? && d.value != "" && d.value !in FreeMailDomains
  }

  /** For an address `local@domain`, the verdict depends on the lower-cased domain alone,
      whatever its letter case. */
  lemma {:induction false} EmailVerdict(local: string, domain: string)
    requires '@' !in local && '@' !in domain
    ensures IsValidBusinessEmail(local + "@" + domain) <==>
      ToLower(domain) != "" && ToLower(domain) !in FreeMailDomains
  {
    var email := local + "@" + domain;
    assert email[|local|] == '@';
    assert email[..|local|] == local;
    var at := IndexOfChar(email, '@');
    assert at == |local|;
    assert email[at + 1..] == domain;
    assert UpTo(domain, '@') == domain;
  }

  /** `extractEmails`: at most three distinct business addresses, in the order they first appear. */
  function ExtractEmails(matches: seq<string>): (r: seq<string>)
    ensures |r| <= MaxEmails && Distinct(r)
    ensures forall i :: 0 <= i < |r| ==> r[i] in matches && IsValidBusinessEmail(r[i])
    ensures forall i, j :: 0 <= i < j < |r| ==> IndexOf(matches, r[i]) < IndexOf(matches, r[j])
    ensures forall k :: 0 <= k < |matches| && IsValidBusinessEmail(matches[k]) && matches[k] !in r ==>
      |r| == MaxEmails && forall i :: 0 <= i < |r| ==> IndexOf(matches, r[i]) < IndexOf(matches, matches[k])
  {
    FirstDistinct(IsValidBusinessEmail, matches, MaxEmails)
  }

  // ---------------------------------------------------------------- phones

  /** The characters of `/[\s\-\(\)]/`. */
  predicate IsPhoneSeparator(c: char) {
    IsJsSpace(c) || c == '-' || c == '(' || c == ')'
  }

  /** `replace(/[\s\-\(\)]/g, '')`. */
  function RemoveSeparators(s: string): (r: string)
    ensures |r| <= |s|
    ensures forall i :: 0 <= i < |r| ==> !IsPhoneSeparator(r[i]) && r[i] in s
  {
    if s == [] then []
    else (if IsPhoneSeparator(s[0]) then [] else [s[0]]) + RemoveSeparators(s[1..])
  }

  predicate IsPhoneChar(c: char) {
    !IsPhoneSeparator(c)
  }

  /** `RemoveSeparators` keeps exactly the characters that are not separators, in their original order. */
  lemma {:induction false} RemoveSeparatorsFilter(s: string)
    ensures RemoveSeparators(s) == Filter(IsPhoneChar, s)
    ensures forall i :: 0 <= i < |s| && !IsPhoneSeparator(s[i]) ==> s[i] in RemoveSeparators(s)
    decreases |s|
  {
    if s != [] {
      assert s == [s[0]] + s[1..];
      FilterCons(IsPhoneChar, s[0], s[1..]);
      RemoveSeparatorsFilter(s[1..]);
    }
  }

  /** The prefix `normalizePhone` strips from a separator-free number: one leading `+54`, then one leading `0`. */
  function PhonePrefix(c: string): string {
    if StartsWith(c, "+540") then "+540"
    else if StartsWith(c, "+54") then "+54"
    else if StartsWith(c, "0") then "0"
    else ""
  }

  /** `replace(/^\+54/, '').replace(/^0/, '')`. */
  function DropPhonePrefixes(c: string): string {
    var noCountry := if StartsWith(c, "+54") then c[3..] else c;
    if StartsWith(noCountry, "0") then noCountry[1..] else noCountry
  }

  /** The two replacements remove exactly `PhonePrefix`. */
  lemma PhonePrefixSplit(c: string)
    ensures c == PhonePrefix(c) + DropPhonePrefixes(c)
  {
    if StartsWith(c, "+54") {
      var rest := c[3..];
      assert c == c[..3] + rest;
      if StartsWith(rest, "0") {
        assert c[..4] == c[..3] + rest[..1];
        assert rest == rest[..1] + rest[1..];
      }
    } else if StartsWith(c, "0") {
      assert c == c[..1] + c[1..];
    }
  }

  /** `normalizePhone`: drop the separators, then one leading `+54`, then one leading `0`. */
  function NormalizePhone(phone: string): (r: string)
    ensures |r| <= |phone|
    ensures forall i :: 0 <= i < |r| ==> !IsPhoneSeparator(r[i])
    ensures RemoveSeparators(phone) == PhonePrefix(RemoveSeparators(phone)) + r
  {
    var c := RemoveSeparators(phone);
    PhonePrefixSplit(c);
    var r := DropPhonePrefixes(c);
    assert forall i :: 0 <= i < |r| ==> r[i] == c[|PhonePrefix(c)| + i];
    r
  }

  predicate HasPhoneLength(p: string) {
    |p| >= MinPhoneLength
  }

  /** The phone list `extractPhones` computes from the matches of its patterns. */
  function PhonesOf(patternMatches: seq<seq<string>>): (r: seq<string>)
    ensures |r| <= MaxPhones && Distinct(r)
    ensures forall i :: 0 <= i < |r| ==> |r[i]| >= MinPhoneLength
    ensures forall i :: 0 <= i < |r| ==>
      exists m :: m in Flatten(patternMatches) && NormalizePhone(m) == r[i]
  {
    var all := Flatten(patternMatches);
    var normalized := Map(NormalizePhone, all);
    var r := FirstDistinct(HasPhoneLength, normalized, MaxPhones);
    forall i | 0 <= i < |r| ensures exists m :: m in all && NormalizePhone(m) == r[i] {
      var j :| 0 <= j < |normalized| && normalized[j] == r[i];
      assert all[j] in all;
    }
    r
  }

  /** The order of `PhonesOf`: first occurrence among the normalised matches of all the patterns,
      taken pattern by pattern; a normalised number of the right length is left out only when three
      numbers that occur before it were kept. */
  lemma PhonesOrder(patternMatches: seq<seq<string>>)
    ensures
      var normalized := Map(NormalizePhone, Flatten(patternMatches));
      var r := PhonesOf(patternMatches);
      && (forall i, j :: 0 <= i < j < |r| ==> IndexOf(normalized, r[i]) < IndexOf(normalized, r[j]))
      && (forall k :: 0 <= k < |normalized| && HasPhoneLength(normalized[k]) && normalized[k] !in r ==>
            |r| == MaxPhones && forall i :: 0 <= i < |r| ==> IndexOf(normalized, r[i]) < IndexOf(normalized, normalized[k]))
  {
  }

  /** `extractPhones`: gathers the matches of every pattern in turn (`forEach` with `push`), then
      normalises, drops short numbers, removes repeats and keeps at most three. */
  method ExtractPhones(patternMatches: seq<seq<string>>) returns (phones: seq<string>)
    ensures phones == PhonesOf(patternMatches)
  {
    var all: seq<string> := [];
    var k := 0;
    while k < |patternMatches|
      invariant 0 <= k <= |patternMatches|
      invariant all == Flatten(patternMatches[..k])
    {
      assert patternMatches[..k + 1][..k] == patternMatches[..k];
      all := all + patternMatches[k];
      k := k + 1;
    }
    assert patternMatches[..k] == patternMatches;
    var normalized := Map(NormalizePhone, all);
    phones := FirstDistinct(HasPhoneLength, normalized, MaxPhones);
  }

  // ---------------------------------------------------------------- address

  /** Pattern `k` produced a first match that is not the empty string. */
  predicate HasFirstMatch(patternMatches: seq<seq<string>>, k: int) {
    0 <= k < |patternMatches| && |patternMatches[k]| > 0 && patternMatches[k][0] != ""
  }

  /** Pattern `k` is the first with a usable match, and `address` is that match trimmed and clipped. */
  predicate IsAddressChoice(patternMatches: seq<seq<string>>, k: int, address: string) {
    && HasFirstMatch(patternMatches, k)
    && (forall j :: 0 <= j < k ==> !HasFirstMatch(patternMatches, j))
    && address == Take(Trim(patternMatches[k][0]), MaxAddressLength)
  }

  /** The address `extractAddress` returns: the first match of the first pattern that has one,
      trimmed and cut to 200 characters. */
  function AddressOf(patternMatches: seq<seq<string>>): (r: Option<string>)
    ensures r.Some? <==> exists k :: HasFirstMatch(patternMatches, k)
    ensures r.Some? ==> |r.value| <= MaxAddressLength && (r.value != "" ==> !IsJsSpace(r.value[0]))
    ensures r.Some? ==> exists k :: IsAddressChoice(patternMatches, k, r.value)
  {
    if patternMatches == [] then None
    else if HasFirstMatch(patternMatches, 0) then
      var address := Take(Trim(patternMatches[0][0]), MaxAddressLength);
      assert IsAddressChoice(patternMatches, 0, address);
      Some(address)
    else
      var r := AddressOf(patternMatches[1..]);
      AddressChoiceShift(patternMatches, r);
      r
  }

  /** When pattern 0 has no usable match, the choice over the remaining patterns is the choice over all. */
  lemma AddressChoiceShift(patternMatches: seq<seq<string>>, r: Option<string>)
    requires patternMatches != [] && !HasFirstMatch(patternMatches, 0)
    requires r.Some? <==> exists k :: HasFirstMatch(patternMatches[1..], k)
    requires r.Some? ==> exists k :: IsAddressChoice(patternMatches[1..], k, r.value)
    ensures r.Some? <==> exists k :: HasFirstMatch(patternMatches, k)
    ensures r.Some? ==> exists k :: IsAddressChoice(patternMatches, k, r.value)
  {
    assert forall k :: HasFirstMatch(patternMatches[1..], k) <==> HasFirstMatch(patternMatches, k + 1);
    assert (exists k :: HasFirstMatch(patternMatches, k)) ==> r.Some? by {
      if k :| HasFirstMatch(patternMatches, k) {
        assert HasFirstMatch(patternMatches[1..], k - 1);
      }
    }
    if r.Some? {
      var k :| IsAddressChoice(patternMatches[1..], k, r.value);
      assert HasFirstMatch(patternMatches, k + 1);
      forall j | 0 <= j < k + 1 ensures !HasFirstMatch(patternMatches, j) {
        if j > 0 { assert !HasFirstMatch(patternMatches[1..], j - 1); }
      }
      assert IsAddressChoice(patternMatches, k + 1, r.value);
    }
  }

  /** `extractAddress`: tries the patterns in order and returns at the first usable match. */
  method ExtractAddress(patternMatches: seq<seq<string>>) returns (address: Option<string>)
    ensures address == AddressOf(patternMatches)
  {
    var k := 0;
    while k < |patternMatches|
      invariant 0 <= k <= |patternMatches|
      invariant AddressOf(patternMatches) == AddressOf(patternMatches[k..])
    {
      var matches := patternMatches[k];
      if |matches| > 0 && matches[0] != "" {
        return Some(Take(Trim(matches[0]), MaxAddressLength));
      }
      assert patternMatches[k..][1..] == patternMatches[k + 1..];
      k := k + 1;
    }
    address := None;
  }

  // ---------------------------------------------------------------- one page

  /** The contact record `extractFromPage` builds for a page loaded from `url`. */
  function PageInfo(url: string, page: PageMatches): (r: ContactInfo)
    ensures r.website == Some(url) && r.socialMedia == None
    ensures r.email.Some? ==> r.email.value in page.emails && IsValidBusinessEmail(r.email.value)
    ensures r.phone.Some? ==> |r.phone.value| >= MinPhoneLength
    ensures r.address.Some? ==> |r.address.value| <= MaxAddressLength
    ensures r.email.Some? <==> FindIndex(page.emails, IsValidBusinessEmail) >= 0
    ensures r.email.Some? ==> r.email.value == page.emails[FindIndex(page.emails, IsValidBusinessEmail)]
    ensures var normalized := Map(NormalizePhone, Flatten(page.phones));
      && (r.phone.Some? <==> FindIndex(normalized, HasPhoneLength) >= 0)
      && (r.phone.Some? ==> r.phone.value == normalized[FindIndex(normalized, HasPhoneLength)])
    ensures r.address.Some? <==> exists k :: HasFirstMatch(page.addresses, k)
    ensures r.address.Some? ==> exists k :: IsAddressChoice(page.addresses, k, r.address.value)
  {
    FirstDistinctHead(IsValidBusinessEmail, page.emails, MaxEmails);
    FirstDistinctHead(HasPhoneLength, Map(NormalizePhone, Flatten(page.phones)), MaxPhones);
    var emails := ExtractEmails(page.emails);
    ContactInfo(Head(emails), Head(PhonesOf(page.phones)), Some(url), AddressOf(page.addresses), None)
  }

  /** `extractFromPage`. */
  method ExtractFromPage(url: string, page: PageMatches) returns (info: ContactInfo)
    ensures info == PageInfo(url, page)
  {
    var emails := ExtractEmails(page.emails);
    var phones := ExtractPhones(page.phones);
    var address := ExtractAddress(page.addresses);
    info := ContactInfo(Head(emails), Head(phones), Some(url), address, None);
  }

  // ---------------------------------------------------------------- contact links

  /** The anchor's text or its `href` mentions a contact keyword, ignoring letter case. */
  predicate IsContactAnchor(a: Anchor) {
    MentionsKeyword(ToLower(a.text), ToLower(a.href), ContactKeywords)
  }

  /** `keywords.some(keyword => text.includes(keyword) || href.includes(keyword))`. */
  predicate MentionsKeyword(text: string, href: string, keywords: seq<string>) {
    keywords != [] &&
    (Contains(text, keywords[0]) || Contains(href, keywords[0]) || MentionsKeyword(text, href, keywords[1..]))
  }

  /** `MentionsKeyword` holds exactly when some keyword occurs in the text or in the href. */
  lemma {:induction false} MentionsKeywordSome(text: string, href: string, keywords: seq<string>)
    ensures MentionsKeyword(text, href, keywords) <==>
      exists k | 0 <= k < |keywords| :: Contains(text, keywords[k]) || Contains(href, keywords[k])
  {
    if keywords != [] {
      MentionsKeywordSome(text, href, keywords[1..]);
      assert forall k :: 0 < k < |keywords| ==> keywords[k] == keywords[1..][k - 1];
    }
  }

  function HrefOf(a: Anchor): string {
    a.href
  }

  /** The list the `forEach` over the anchors pushes to: the `href` of every contact anchor, in document order. */
  function ContactHrefs(anchors: seq<Anchor>): (r: seq<string>)
    ensures Keeps(IsContactAnchor, HrefOf, anchors, r)
  {
    MapWhere(IsContactAnchor, HrefOf, anchors)
  }

  /** The pushed list is `anchors.filter(isContact).map(a => a.href)`: contact hrefs in document order. */
  lemma ContactHrefsInOrder(anchors: seq<Anchor>)
    ensures ContactHrefs(anchors) == Map(HrefOf, Filter(IsContactAnchor, anchors))
  {
    MapWhereFilter(IsContactAnchor, HrefOf, anchors);
  }

  /** The list `page.evaluate` hands back, `[...new Set(links)]`: each contact href once, in the
      order of its first occurrence among the anchors; it holds the href of every contact anchor
      and nothing else. */
  function ContactLinks(anchors: seq<Anchor>): (r: seq<string>)
    ensures IsDedupe(ContactHrefs(anchors), r)
    ensures Keeps(IsContactAnchor, HrefOf, anchors, r)
  {
    var hrefs := ContactHrefs(anchors);
    var r := Dedupe(hrefs);
    DedupeKeeps(IsContactAnchor, HrefOf, anchors, hrefs, r);
    r
  }

  predicate IsSameSiteLink(origin: string, link: string) {
    StartsWith(link, origin) || StartsWith(link, "/")
  }

  /** A root-relative link is made absolute against the origin. */
  function Absolutize(origin: string, link: string): string {
    if StartsWith(link, "/") then origin + link else link
  }

  /** A same-site link stays on the origin once made absolute. */
  lemma AbsolutizeKeepsOrigin(origin: string, link: string)
    requires IsSameSiteLink(origin, link)
    ensures StartsWith(Absolutize(origin, link), origin)
  {
    if StartsWith(link, "/") {
      assert (origin + link)[..|origin|] == origin;
    }
  }

  /** `contactLinks.filter(link => link.startsWith(baseUrl) || link.startsWith('/'))`. */
  function SameSiteLinks(origin: string, links: seq<string>): (r: seq<string>)
    ensures forall i :: 0 <= i < |r| ==> r[i] in links && IsSameSiteLink(origin, r[i])
    ensures forall i :: 0 <= i < |links| && IsSameSiteLink(origin, links[i]) ==> links[i] in r
    ensures Distinct(links) ==> Distinct(r) && forall i, j :: 0 <= i < j < |r| ==> IndexOf(links, r[i]) < IndexOf(links, r[j])
  {
    FilterDistinctOrder(l => IsSameSiteLink(origin, l), links);
    Filter(l => IsSameSiteLink(origin, l), links)
  }

  /** `url` is the link of a contact anchor, perhaps made absolute against `origin`. */
  predicate FromContactAnchor(origin: string, anchors: seq<Anchor>, url: string) {
    exists k | 0 <= k < |anchors| ::
      IsContactAnchor(anchors[k]) && (url == anchors[k].href || url == origin + anchors[k].href)
  }

  /** A same-site contact link, made absolute, stays on the origin and comes from a contact anchor. */
  lemma ContactUrlSource(origin: string, anchors: seq<Anchor>, l: string)
    requires l in ContactLinks(anchors) && IsSameSiteLink(origin, l)
    ensures StartsWith(Absolutize(origin, l), origin)
    ensures FromContactAnchor(origin, anchors, Absolutize(origin, l))
  {
    AbsolutizeKeepsOrigin(origin, l);
    var links := ContactLinks(anchors);
    var j :| 0 <= j < |links| && links[j] == l;
    assert Sourced(IsContactAnchor, HrefOf, anchors, links[j]);
    var k :| 0 <= k < |anchors| && KeptAt(IsContactAnchor, HrefOf, anchors, k, l);
    assert IsContactAnchor(anchors[k]) && anchors[k].href == l;
    assert Absolutize(origin, l) == anchors[k].href || Absolutize(origin, l) == origin + anchors[k].href;
  }

  /** Same-site contact links, made absolute, stay on the origin and come from contact anchors. */
  lemma ContactUrlsSourced(origin: string, anchors: seq<Anchor>, r: seq<string>)
    requires var sameSite := SameSiteLinks(origin, ContactLinks(anchors));
      && |r| <= |sameSite| && forall i :: 0 <= i < |r| ==> r[i] == Absolutize(origin, sameSite[i])
    ensures forall i :: 0 <= i < |r| ==> StartsWith(r[i], origin) && FromContactAnchor(origin, anchors, r[i])
  {
    var links := ContactLinks(anchors);
    var sameSite := SameSiteLinks(origin, links);
    forall i | 0 <= i < |r| ensures StartsWith(r[i], origin) && FromContactAnchor(origin, anchors, r[i]) {
      assert sameSite[i] in links;
      ContactUrlSource(origin, anchors, sameSite[i]);
    }
  }

  /** Every link made absolute against `origin`, in order. */
  function AbsoluteLinks(origin: string, links: seq<string>): (r: seq<string>)
    ensures |r| == |links|
    ensures forall i :: 0 <= i < |links| ==> r[i] == Absolutize(origin, links[i])
  {
    if links == [] then []
    else [Absolutize(origin, links[0])] + AbsoluteLinks(origin, links[1..])
  }

  /** `findContactUrls` after the page scan: the first five same-site contact links, in order,
      each made absolute; a same-site contact link is dropped only when five come before it. */
  function FindContactUrls(origin: string, anchors: seq<Anchor>): (r: seq<string>)
    ensures var sameSite := SameSiteLinks(origin, ContactLinks(anchors));
      && |r| == (if |sameSite| < MaxContactUrls then |sameSite| else MaxContactUrls)
      && forall i :: 0 <= i < |r| ==> r[i] == Absolutize(origin, sameSite[i])
    ensures forall i :: 0 <= i < |r| ==> StartsWith(r[i], origin)
    ensures forall i :: 0 <= i < |r| ==> FromContactAnchor(origin, anchors, r[i])
  {
    var sameSite := SameSiteLinks(origin, ContactLinks(anchors));
    var r := Take(AbsoluteLinks(origin, sameSite), MaxContactUrls);
    ContactUrlsSourced(origin, anchors, r);
    r
  }

  /** A same-site contact link is missing from the result only when five others were kept. */
  lemma FindContactUrlsComplete(origin: string, anchors: seq<Anchor>, i: int)
    requires 0 <= i < |ContactLinks(anchors)| && IsSameSiteLink(origin, ContactLinks(anchors)[i])
    ensures Absolutize(origin, ContactLinks(anchors)[i]) !in FindContactUrls(origin, anchors) ==>
      |FindContactUrls(origin, anchors)| == MaxContactUrls
  {
    var links := ContactLinks(anchors);
    var sameSite := SameSiteLinks(origin, links);
    var r := FindContactUrls(origin, anchors);
    var j :| 0 <= j < |sameSite| && sameSite[j] == links[i];
    if j < |r| {
      assert r[j] == Absolutize(origin, links[i]);
    }
  }

  // ---------------------------------------------------------------- contact pages

  predicate YieldsContact(info: ContactInfo) {
    Truthy(info.email) || Truthy(info.phone)
  }

  /** The record a contact page at `u` contributes: present when the page loads and shows an email or a phone. */
  function Yield(visit: string -> Completion<PageMatches>, u: string): (r: Option<ContactInfo>)
    ensures r.Some? <==> visit(u).Returned? && YieldsContact(PageInfo(u, visit(u).value))
    ensures r.Some? ==> r.value == PageInfo(u, visit(u).value) && r.value.website == Some(u)
  {
    match visit(u)
    case Threw(_) => None
    case Returned(page) =>
      var info := PageInfo(u, page);
      if YieldsContact(info) then Some(info) else None
  }

  /** The first candidate page that loads and yields a contact, else `{website: baseUrl}`. */
  function FirstContactHit(baseUrl: string, candidates: seq<string>, visit: string -> Completion<PageMatches>): ContactInfo {
    match FirstSome(u => Yield(visit, u), candidates)
    case None => WebsiteOnly(baseUrl)
    case Some(info) => info
  }

  /** The record `searchContactPages` returns for the contact URLs found. */
  function ContactPagesResult(baseUrl: string, contactUrls: seq<string>, visit: string -> Completion<PageMatches>): ContactInfo {
    FirstContactHit(baseUrl, Take(contactUrls, MaxContactPages), visit)
  }

  /** `searchContactPages` tries at most the first three candidates, skips the ones that fail to
      load or show nothing, and returns the first that yields an email or a phone; otherwise `{website: baseUrl}`. */
  lemma ContactPagesChoice(baseUrl: string, contactUrls: seq<string>, visit: string -> Completion<PageMatches>)
    ensures var r := ContactPagesResult(baseUrl, contactUrls, visit);
      var tried := Take(contactUrls, MaxContactPages);
      && |tried| <= MaxContactPages && tried == contactUrls[..|tried|]
      && ((forall k :: 0 <= k < |tried| ==> Yield(visit, tried[k]).None?) ==> r == WebsiteOnly(baseUrl))
      && ((exists k :: 0 <= k < |tried| && Yield(visit, tried[k]).Some?) ==>
            exists k :: 0 <= k < |tried| && Yield(visit, tried[k]) == Some(r)
              && forall j :: 0 <= j < k ==> Yield(visit, tried[j]).None?)
  {
    var tried := Take(contactUrls, MaxContactPages);
    var y := u => Yield(visit, u);
    var found := FirstSome(y, tried);
    assert forall k :: 0 <= k < |tried| ==> y(tried[k]) == Yield(visit, tried[k]);
  }

  /** `searchContactPages`, given the contact URLs: a loop with `continue` on a failed page and an early return. */
  method SearchContactPages(baseUrl: string, contactUrls: seq<string>, visit: string -> Completion<PageMatches>)
    returns (info: ContactInfo)
    ensures info == ContactPagesResult(baseUrl, contactUrls, visit)
  {
    var candidates := Take(contactUrls, MaxContactPages);
    var k := 0;
    while k < |candidates|
      invariant 0 <= k <= |candidates|
      invariant ContactPagesResult(baseUrl, contactUrls, visit) == FirstContactHit(baseUrl, candidates[k..], visit)
    {
      var contactUrl := candidates[k];
      assert candidates[k..][1..] == candidates[k + 1..];
      assert candidates[k..][0] == contactUrl;
      match visit(contactUrl) {
        case Threw(_) =>
        case Returned(page) =>
          var found := ExtractFromPage(contactUrl, page);
          if Truthy(found.email) || Truthy(found.phone) {
            return found;
          }
      }
      k := k + 1;
    }
    info := WebsiteOnly(baseUrl);
  }

  // ---------------------------------------------------------------- merging and the whole extraction

  /** `mergeContactInfo`: the website of the first record; for email, phone and address the first
      record's value when it is non-empty, otherwise the second's; nothing else survives. */
  function MergeContactInfo(info1: ContactInfo, info2: ContactInfo): (r: ContactInfo)
    ensures r.website == info1.website && r.socialMedia == None
    ensures Truthy(info1.email) ==> r.email == info1.email
    ensures !Truthy(info1.email) ==> r.email == info2.email
    ensures Truthy(info1.phone) ==> r.phone == info1.phone
    ensures !Truthy(info1.phone) ==> r.phone == info2.phone
    ensures Truthy(info1.address) ==> r.address == info1.address
    ensures !Truthy(info1.address) ==> r.address == info2.address
  {
    ContactInfo(OrElse(info1.email, info2.email), OrElse(info1.phone, info2.phone), info1.website,
                OrElse(info1.address, info2.address), None)
  }

  /** Merging loses no contact: a field is present in the merge iff it is present in either record. */
  lemma MergePresence(info1: ContactInfo, info2: ContactInfo)
    ensures var r := MergeContactInfo(info1, info2);
      && (Truthy(r.email) <==> Truthy(info1.email) || Truthy(info2.email))
      && (Truthy(r.phone) <==> Truthy(info1.phone) || Truthy(info2.phone))
      && (Truthy(r.address) <==> Truthy(info1.address) || Truthy(info2.address))
  {
  }

  /** First-non-empty-wins merging is associative. */
  lemma MergeAssociative(a: ContactInfo, b: ContactInfo, c: ContactInfo)
    ensures MergeContactInfo(MergeContactInfo(a, b), c) == MergeContactInfo(a, MergeContactInfo(b, c))
  {
  }

  /** The primary page already gives both an email and a phone, so no contact page is searched. */
  predicate BothFound(info: ContactInfo) {
    Truthy(info.email) && Truthy(info.phone)
  }

  /** The contact data `extractContacts(url)` gathers once the page is open: the primary page,
      then the contact pages when an email or a phone is missing. */
  function PageContacts(url: string, site: Site): (info: ContactInfo)
    ensures info.website == Some(url) && info.socialMedia == None
    ensures site.primary.Threw? ==> info == WebsiteOnly(url)
    ensures site.primary.Returned? && site.links.Threw? && !BothFound(PageInfo(url, site.primary.value)) ==>
      info == WebsiteOnly(url)
  {
    match site.primary
    case Threw(_) => WebsiteOnly(url)
    case Returned(page) =>
      var first := PageInfo(url, page);
      if BothFound(first) then first
      else match site.links
        case Threw(_) => WebsiteOnly(url)
        case Returned(scan) =>
          MergeContactInfo(first, ContactPagesResult(url, FindContactUrls(scan.origin, scan.anchors), site.visit))
  }

  /** What `extractContacts(url)` resolves to, or the error it rejects with. */
  function ContactsResult(url: string, site: Site): (r: Completion<ContactInfo>)
    ensures r.Threw? <==> site.pageError.Some?
    ensures r.Returned? ==> r.value.website == Some(url) && r.value.socialMedia == None
    ensures site.pageError.None? && site.primary.Threw? ==> r == Returned(WebsiteOnly(url))
  {
    if site.pageError.Some? then Threw(site.pageError.value)
    else Returned(PageContacts(url, site))
  }

  /** The body of `extractContacts` between opening and closing the page. */
  method ScrapePage(url: string, site: Site) returns (contactInfo: ContactInfo)
    ensures contactInfo == PageContacts(url, site)
  {
    match site.primary {
      case Threw(_) =>
        contactInfo := WebsiteOnly(url);
      case Returned(page) =>
        contactInfo := ExtractFromPage(url, page);
        if !Truthy(contactInfo.email) || !Truthy(contactInfo.phone) {
          match site.links {
            case Threw(_) =>
              contactInfo := WebsiteOnly(url);
            case Returned(scan) =>
              var contactUrls := FindContactUrls(scan.origin, scan.anchors);
              var additionalInfo := SearchContactPages(url, contactUrls, site.visit);
              contactInfo := MergeContactInfo(contactInfo, additionalInfo);
          }
        }
    }
  }

  /** Contact pages are consulted only when the primary page lacks an email or a phone: otherwise
      the result does not depend on the link scan or on the contact pages. */
  lemma ContactSearchOnlyWhenMissing(url: string, site: Site, links: Completion<LinkScan>, visit: string -> Completion<PageMatches>)
    requires site.pageError.None? && site.primary.Returned?
    requires var first := PageInfo(url, site.primary.value); Truthy(first.email) && Truthy(first.phone)
    ensures ContactsResult(url, site) == ContactsResult(url, site.(links := links, visit := visit))
            == Returned(PageInfo(url, site.primary.value))
  {
  }

  /** When the contact search runs, the primary page's email and phone are kept and only the missing
      ones are taken from the chosen contact page; a failed link scan gives up on everything. */
  lemma ContactSearchFillsGaps(url: string, site: Site)
    requires site.pageError.None? && site.primary.Returned?
    requires var first := PageInfo(url, site.primary.value); !(Truthy(first.email) && Truthy(first.phone))
    ensures var first := PageInfo(url, site.primary.value);
      match site.links
      case Threw(_) => ContactsResult(url, site) == Returned(WebsiteOnly(url))
      case Returned(scan) =>
        var extra := ContactPagesResult(url, FindContactUrls(scan.origin, scan.anchors), site.visit);
        && ContactsResult(url, site).value.website == Some(url)
        && (Truthy(first.email) ==> ContactsResult(url, site).value.email == first.email)
        && (Truthy(first.phone) ==> ContactsResult(url, site).value.phone == first.phone)
        && (!Truthy(first.email) ==> ContactsResult(url, site).value.email == extra.email)
        && (!Truthy(first.phone) ==> ContactsResult(url, site).value.phone == extra.phone)
        && (Truthy(first.address) ==> ContactsResult(url, site).value.address == first.address)
        && (!Truthy(first.address) ==> ContactsResult(url, site).value.address == extra.address)
  {
  }

  /** `ScraperService`: extraction on the shared browser. */
  class ScraperService {
    const browser: Browser

    constructor (browser: Browser)
      ensures this.browser == browser
    {
      this.browser := browser;
    }

    /** `extractContacts`: opens a page (a rejection here propagates), scrapes inside `try`, turns any
        failure into `{website: url}`, and closes the page in `finally`. */
    method ExtractContacts(url: string, site: Site) returns (r: Completion<ContactInfo>)
      modifies browser
      ensures browser.openPages == old(browser.openPages)
      ensures r == ContactsResult(url, site)
    {
      if site.pageError.Some? {
        return Threw(site.pageError.value);
      }
      browser.NewPage();
      var contactInfo := ScrapePage(url, site);
      browser.ClosePage();
      r := Returned(contactInfo);
    }
  }
}
