/**
 * The drag-and-drop importer (src/components/DataImporter.jsx): a file is
 * read only if it looks like JSON, and the whole file is refused if any
 * entry is bad.
 */
module DataImporter {
  import opened Wrappers
  import opened Technologies
  import opened ImportFile

  /**
   * Why an import was refused; entry numbers are 1-based.  `NullDocumentRead`
   * is the TypeError from reading `technologies` of a `null` document.
   */
  datatype ImportError =
    | ParseFailed
    | NullDocumentRead
    | MissingArray
    | NotAnObject(number: nat)
    | MissingField(number: nat)
    | TitleTooLong(title: string)
    | NotJson
    | ReadFailed

  /** `tech.title && tech.description`. */
  predicate HasFields(e: Entry) {
    e.Record? && e.tech.title != "" && e.tech.description != ""
  }

  /** An entry that passes both checks of the `forEach`. */
  predicate EntryOk(e: Entry) {
    HasFields(e) && |e.tech.title| <= 50
  }

  function EntryIsBad(): Entry -> bool {
    (e: Entry) => !EntryOk(e)
  }

  /**
   * The error the `forEach` throws at entry `number`: reading a field of
   * `null` fails first, then a missing field, then the length.
   */
  function EntryError(e: Entry, number: nat): (r: ImportError)
    ensures r == NotAnObject(number) <==> e.NullEntry?
    ensures r == MissingField(number) <==> e.Record? && !HasFields(e)
    ensures r.TitleTooLong? <==> HasFields(e)
    ensures r.TitleTooLong? ==> r.title == e.tech.title
  {
    if e.NullEntry? then NotAnObject(number)
    else if !HasFields(e) then MissingField(number)
    else TitleTooLong(e.tech.title)
  }

  /**
   * `validateImportData` followed by reading `technologies`: the array, or the
   * error for the first bad entry.
   */
  function Validate(content: FileContent): (r: Result<seq<Entry>, ImportError>)
    ensures r.Success? <==> content.Items? && forall i | 0 <= i < |content.entries| :: EntryOk(content.entries[i])
    ensures r.Success? ==> r.value == content.entries
    ensures content.Unparseable? ==> r == Failure(ParseFailed)
    ensures content.NullDocument? ==> r == Failure(NullDocumentRead)
    ensures content.NoArray? ==> r == Failure(MissingArray)
    ensures content.Items? && r.Failure? ==>
              exists k | 0 <= k < |content.entries| ::
                !EntryOk(content.entries[k])
                && (forall j | 0 <= j < k :: EntryOk(content.entries[j]))
                && r.error == EntryError(content.entries[k], k + 1)
  {
    match content
    case Unparseable => Failure(ParseFailed)
    case NullDocument => Failure(NullDocumentRead)
    case NoArray => Failure(MissingArray)
    case Items(entries) =>
      match FindFirst(entries, EntryIsBad())
      case None => Success(entries)
      case Some(k) => Failure(EntryError(entries[k], k + 1))
  }

  /** A file is refused as a whole: every entry of a concatenation must pass. */
  lemma ValidateConcat(a: seq<Entry>, b: seq<Entry>)
    ensures Validate(Items(a + b)).Success? <==> Validate(Items(a)).Success? && Validate(Items(b)).Success?
  {
    if Validate(Items(a)).Success? && Validate(Items(b)).Success? {
      forall i | 0 <= i < |a + b| ensures EntryOk((a + b)[i]) {
        if i >= |a| {
          assert (a + b)[i] == b[i - |a|];
        }
      }
    }
    if Validate(Items(a + b)).Success? {
      forall i | 0 <= i < |a| ensures EntryOk(a[i]) {
        assert a[i] == (a + b)[i];
      }
      forall i | 0 <= i < |b| ensures EntryOk(b[i]) {
        assert b[i] == (a + b)[|a| + i];
      }
    }
  }

  /** `file.type === 'application/json' || file.name.endsWith('.json')`. */
  function AcceptsFile(fileType: string, name: string): (r: bool)
    ensures r <==> fileType == "application/json" || (|name| >= 5 && name[|name| - 5..] == ".json")
  {
    fileType == "application/json" || EndsWith(name, ".json")
  }

  /** The file chosen in the input or dropped on the zone, if any. */
  datatype Picked = NoFile | File(fileType: string, name: string, read: ReadResult)

  /** The component's messages: the error, and the success count. */
  datatype Messages = Messages(importError: Option<ImportError>, importSuccess: Option<nat>)

  /** The messages shown after a file and the array passed to `onImport`, if any. */
  datatype Outcome = Outcome(messages: Messages, imported: Option<seq<Entry>>)

  /**
   * `handleFileSelect` / `handleDrop` and the reader callbacks: no file does
   * nothing; a file that does not look like JSON is refused unread; otherwise
   * the parsed content is validated and, when valid, the unmodified array is
   * handed over and its length reported.
   */
  function HandleFile(f: Picked, before: Messages): (r: Outcome)
    ensures f.NoFile? ==> r == Outcome(before, None)
    ensures f.File? && !AcceptsFile(f.fileType, f.name) ==> r.imported.None? && r.messages.importError == Some(NotJson)
    ensures r.imported.Some? <==>
              f.File? && AcceptsFile(f.fileType, f.name) && f.read.Read? && Validate(f.read.content).Success?
    ensures r.imported.Some? ==>
              r.imported.value == f.read.content.entries
              && r.messages == Messages(None, Some(|f.read.content.entries|))
    ensures f.File? && AcceptsFile(f.fileType, f.name) && r.imported.None? ==>
              r.messages.importError.Some? && r.messages.importSuccess.None?
  {
    match f
    case NoFile => Outcome(before, None)
    case File(fileType, name, read) =>
      if !AcceptsFile(fileType, name) then Outcome(before.(importError := Some(NotJson)), None)
      else
        match read
        case ReadError => Outcome(Messages(Some(ReadFailed), None), None)
        case Read(content) =>
          match Validate(content)
          case Success(entries) => Outcome(Messages(None, Some(|entries|)), Some(entries))
          case Failure(e) => Outcome(Messages(Some(e), None), None)
  }

  /** The name alone is enough: any `.json` file is read, whatever type the browser gives it. */
  lemma JsonNameAccepted(fileType: string, stem: string)
    ensures AcceptsFile(fileType, stem + ".json")
  {
    assert (stem + ".json")[|stem|..] == ".json";
  }
}
