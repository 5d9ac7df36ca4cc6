/** The records exchanged with the server: companies, contacts, images and partial updates. */
module Types {
  import opened Wrappers

  datatype Image = Image(name: string, filepath: string, thumbpath: string, createdAt: string)

  datatype Contract = Contract(no: string, issueDate: string)

  /**
   * The company's `type` field as it can arrive at run time: an array of type tags, or
   * any other JSON value (a string, a number, `null`, an object). Nothing on the read
   * path checks it; only `updateCompany` repairs it before sending.
   */
  datatype TypeValue = TypeList(items: seq<string>) | NotArray

  /** A company; `types` is the source's `type` field (a reserved word here). */
  datatype Company = Company(
    id: string,
    contactId: string,
    name: string,
    shortName: string,
    businessEntity: string,
    contract: Contract,
    types: TypeValue,
    status: string,
    photos: seq<Image>,
    createdAt: string,
    updatedAt: string)

  datatype Contact = Contact(
    id: string,
    lastname: string,
    firstname: string,
    phone: string,
    email: string,
    createdAt: string,
    updatedAt: string)

  /** `Partial<CompanyType>`: every key may be absent (None). */
  datatype CompanyPatch = CompanyPatch(
    id: Option<string>,
    contactId: Option<string>,
    name: Option<string>,
    shortName: Option<string>,
    businessEntity: Option<string>,
    contract: Option<Contract>,
    types: Option<TypeValue>,
    status: Option<string>,
    photos: Option<seq<Image>>,
    createdAt: Option<string>,
    updatedAt: Option<string>)

  /** `Partial<ContactType>`: every key may be absent (None). */
  datatype ContactPatch = ContactPatch(
    id: Option<string>,
    lastname: Option<string>,
    firstname: Option<string>,
    phone: Option<string>,
    email: Option<string>,
    createdAt: Option<string>,
    updatedAt: Option<string>)

  /** The empty object `{}` as a company patch. */
  const NoCompanyChanges := CompanyPatch(None, None, None, None, None, None, None, None, None, None, None)

  /** The empty object `{}` as a contact patch. */
  const NoContactChanges := ContactPatch(None, None, None, None, None, None, None)
}
