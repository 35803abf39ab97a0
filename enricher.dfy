/** Per-record outcome classification of src/enricher.ts. */
module Enricher {
  import opened Wrappers
  import opened Errors
  import opened Types
  import opened Scraper

  /** The status rule: both email and phone give SUCCESS, exactly one PARTIAL, neither FAILED;
      the website and the other fields play no part. */
  function Classify(info: ContactInfo): (s: Status)
    ensures s != Pending
    ensures s == Success <==> Truthy(info.email) && Truthy(info.phone)
    ensures s == Partial <==> Truthy(info.email) != Truthy(info.phone)
    ensures s == Failed <==> !Truthy(info.email) && !Truthy(info.phone)
  {
    var hasEmail := Truthy(info.email);
    var hasPhone := Truthy(info.phone);
    if hasEmail && hasPhone then Success else if hasEmail || hasPhone then Partial else Failed
  }

  /** The result for a record that could not be enriched. */
  function FailedResult(company: Company): EnrichmentResult {
    EnrichmentResult(company, NoContact, Failed)
  }

  /** `enrichCompany`, given how the website search ended and how the extraction of a website ends. */
  function EnrichCompany(company: Company, discovered: Completion<Option<string>>, extract: string -> Completion<ContactInfo>): (r: EnrichmentResult)
    ensures r.company == company
    ensures r.status != Pending
    ensures discovered.Threw? ==> r == FailedResult(company)
    ensures discovered.Returned? && !Truthy(discovered.value) ==> r == FailedResult(company)
    ensures discovered.Returned? && Truthy(discovered.value) ==>
      match extract(discovered.value.value)
      case Threw(_) => r == FailedResult(company)
      case Returned(info) => r.contactInfo == info && r.status == Classify(info)
  {
    match discovered
    case Threw(_) => FailedResult(company)
    case Returned(website) =>
      if !Truthy(website) then FailedResult(company)
      else match extract(website.value)
        case Threw(_) => FailedResult(company)
        case Returned(contactInfo) => EnrichmentResult(company, contactInfo, Classify(contactInfo))
  }

  /** Without a website the extraction is never invoked: the result is the same whatever it would do. */
  lemma NoWebsiteNoExtraction(company: Company, discovered: Completion<Option<string>>,
                              extract1: string -> Completion<ContactInfo>, extract2: string -> Completion<ContactInfo>)
    requires discovered.Threw? || !Truthy(discovered.value)
    ensures EnrichCompany(company, discovered, extract1) == EnrichCompany(company, discovered, extract2) == FailedResult(company)
  {
  }

  /** Every record is classified, and a FAILED record either found no contact or carries none. */
  lemma FailedMeansNoContact(company: Company, discovered: Completion<Option<string>>, extract: string -> Completion<ContactInfo>)
    ensures var r := EnrichCompany(company, discovered, extract);
      && (r.status == Success || r.status == Partial || r.status == Failed)
      && (r.status == Failed ==> !Truthy(r.contactInfo.email) && !Truthy(r.contactInfo.phone))
      && (r.status != Failed ==> Truthy(r.contactInfo.email) || Truthy(r.contactInfo.phone))
  {
  }

  /** The message of the `TypeError` that calling a missing method raises. */
  const NewPageNotAFunction := "this.browser.newPage is not a function"

  /** As written, the enricher hands its `SearchService` to `ScraperService` as the browser. That
      object has no `newPage`, so the very first call of `extractContacts` fails with a `TypeError`. */
  function AsWiredSite(site: Site): Site {
    site.(pageError := Some(PlainError(NewPageNotAFunction)))
  }

  function AsWiredExtract(sites: string -> Site): string -> Completion<ContactInfo> {
    url => ContactsResult(url, AsWiredSite(sites(url)))
  }

  /** With the wiring as written, every record for which a website is found ends FAILED with no
      contact, whatever the website holds. */
  lemma AsWiredAlwaysFails(company: Company, website: string, sites: string -> Site)
    requires website != ""
    ensures EnrichCompany(company, Returned(Some(website)), AsWiredExtract(sites)) == FailedResult(company)
  {
    assert AsWiredExtract(sites)(website) == ContactsResult(website, AsWiredSite(sites(website)));
  }

  /** The intended wiring: the scraper works on a browser that opens pages. */
  function WiredExtract(sites: string -> Site): string -> Completion<ContactInfo> {
    url => ContactsResult(url, sites(url))
  }

  /** With the intended wiring and a page that opens, the status is decided by what the scraper found,
      and the website recorded is the one the search found. */
  lemma CorrectedWiringClassifies(company: Company, website: string, sites: string -> Site)
    requires website != "" && sites(website).pageError.None?
    ensures var r := EnrichCompany(company, Returned(Some(website)), WiredExtract(sites));
      && r.contactInfo == ContactsResult(website, sites(website)).value
      && r.contactInfo.website == Some(website)
      && r.status == Classify(r.contactInfo)
  {
    assert WiredExtract(sites)(website) == ContactsResult(website, sites(website));
  }
}
