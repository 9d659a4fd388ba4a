/** Records of the source (Autotask) API that more than one stage reads.
    A key that the scripts read with `.get` may be absent or null; both read
    as None, so both are `Option` here. */
module Records {
  import opened Wrappers

  /** One item of the Contacts query: fetched and uploaded by
      contacts_migration.py, looked up by id in script3_tickets.py. */
  datatype Contact = Contact(
    id: int,
    firstName: Option<string>,
    lastName: Option<string>,
    emailAddress: Option<string>,
    title: Option<string>,
    phone: Option<string>,
    mobilePhone: Option<string>,
    primaryContact: Option<bool>,  // None: the key is absent
    createDate: Option<string>)

  /** One item of the Resources query (a technician of the source system). */
  datatype Resource = Resource(
    id: int,
    firstName: Option<string>,
    lastName: Option<string>,
    email: Option<string>)
}
