/**
 * The shape of an imported JSON file, after parsing, as the two importers
 * see it: text that does not parse, a `null` document, a document whose
 * `technologies` is missing, falsy or not an array, or an array of entries.
 * An entry is `null` or an object, read as a record whose absent fields are
 * blank.
 */
module ImportFile {
  import opened Technologies

  datatype Entry = NullEntry | Record(tech: Tech)

  datatype FileContent =
    | Unparseable
    | NullDocument
    | NoArray
    | Items(entries: seq<Entry>)

  /** What the file reader delivers. */
  datatype ReadResult = ReadError | Read(content: FileContent)
}
