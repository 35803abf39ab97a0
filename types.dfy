/** The records of src/utils/types.ts that the core builds and passes around. */
module Types {
  import opened Wrappers

  /** One business record; `cuit` is the tax id, `razonSocial` the legal name. */
  datatype Company = Company(
    name: string,
    location: Option<string>,
    rowNumber: int,
    cuit: Option<string>,
    razonSocial: Option<string>)

  datatype SocialMedia = SocialMedia(facebook: Option<string>, instagram: Option<string>, linkedin: Option<string>)

  datatype ContactInfo = ContactInfo(
    email: Option<string>,
    phone: Option<string>,
    website: Option<string>,
    address: Option<string>,
    socialMedia: Option<SocialMedia>)

  datatype Status = Success | Partial | Failed | Pending

  /** `{...company, contactInfo, status}`: the company's own fields are kept in `company`. */
  datatype EnrichmentResult = EnrichmentResult(company: Company, contactInfo: ContactInfo, status: Status)

  /** The part of a location that the model keeps (coordinates are floating point and left out). */
  datatype LocationData = LocationData(address: Option<string>, placeId: Option<string>)

  datatype CUITInfo = CUITInfo(cuit: string, razonSocial: string)

  /** `{}`. */
  const NoContact := ContactInfo(None, None, None, None, None)

  /** `{website: url}`. */
  function WebsiteOnly(url: string): ContactInfo {
    ContactInfo(None, None, Some(url), None, None)
  }
}
