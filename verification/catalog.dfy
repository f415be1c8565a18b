/** The records the console works on. Catalog entries (source types and
    application types) are read-only reference data; sources, their
    applications and stored authentication values come from the remote
    system of record. Only the properties the modelled logic reads are kept. */
module Catalog {
  import opened Wrappers

  /** A stored credential. `username` may be absent. */
  datatype AuthValue = AuthValue(id: string, authtype: string, username: Option<string>)

  /** One entry of a source type's `schema.authentication` list: the
      authentication type code (`type` in the API) and its display name. */
  datatype AuthSchema = AuthSchema(authType: string, name: string)

  /** A source type; `authSchema` is `schema.authentication`, absent when
      the schema does not list authentication variants. */
  datatype SourceType = SourceType(name: string, authSchema: Option<seq<AuthSchema>>)

  /** An application type. `supportedAuthTypes` maps a source type name to
      the authentication type codes the application accepts on it, in
      declaration order. */
  datatype AppType = AppType(
    id: string,
    name: string,
    displayName: string,
    supportedSourceTypes: seq<string>,
    supportedAuthTypes: map<string, seq<string>>)

  /** An application attached to a source. `authentications` holds the ids
      of the authentication values it references. */
  datatype Application = Application(
    id: string,
    applicationTypeId: Option<string>,
    authentications: seq<string>)

  /** A source; `applications` may be absent on a freshly created source. */
  datatype Source = Source(id: string, applications: Option<seq<Application>>)
}
