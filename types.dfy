/** The records the dashboard keeps about its spreadsheets. */
module Types {
  import opened Wrappers

  /** Which kind of sheets a project holds. */
  datatype Category = Production | Hourly

  /** The text a category is stored as: `'production'` or `'hourly'`. */
  function CategoryName(c: Category): string {
    match c
    case Production => "production"
    case Hourly => "hourly"
  }

  /** A configured spreadsheet; `customSheets` is a comma-separated list of sheet names. */
  datatype Project = Project(
    id: string,
    name: string,
    spreadsheetId: string,
    color: string,
    category: Category,
    customSheets: Option<string>)
}
