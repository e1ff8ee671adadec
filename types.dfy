/** The record type of the "Datenerfassung" app and the app identifier. */
module Types {
  import opened Wrappers

  /** The identifier of the one app whose records the dashboard manages. */
  const DatenerfassungAppId: string := "698d77713243f76fa48f2999"

  /** The user-editable attributes of a record; each may be absent. */
  datatype Fields = Fields(feldEins: Option<string>, feldZwei: Option<string>)

  /**
   * One record. `createdAt` is declared as a plain string, but the code that
   * reads it guards against its absence (`createdat ?? ''`, `createdat ? … : …`),
   * so it is optional here; `updatedAt` is `string | null`.
   */
  datatype Record = Record(
    recordId: string,
    createdAt: Option<string>,
    updatedAt: Option<string>,
    fields: Fields)
}
