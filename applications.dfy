/**
 * Application records, the reading of the three attached files and the
 * durable store that holds the list of applications.
 */
module Applications {
  import opened Wrappers

  /** A file attached to an application: its original name and its data URL. */
  datatype FileData = FileData(name: string, dataUrl: string)

  /** What the host's file reader delivers for a chosen file. */
  datatype ReadOutcome = Loaded(dataUrl: string) | Unreadable

  /** A file chosen in one of the form's file inputs. */
  datatype ChosenFile = ChosenFile(name: string, outcome: ReadOutcome)

  /** The reason a read was rejected; the source only logs it. */
  datatype ReadError = ReadError

  /** One persisted application; `files` holds resume, cover letter and transcripts. */
  datatype Application = Application(
    id: int,
    submittedAt: string,
    fullName: string,
    email: string,
    phone: string,
    files: seq<Option<FileData>>)

  /** The fields the applicant form hands to the submit handler. */
  datatype ApplicationForm = ApplicationForm(
    fullName: string,
    email: string,
    phone: string,
    resume: Option<ChosenFile>,
    coverLetter: Option<ChosenFile>,
    transcripts: Option<ChosenFile>)

  /** The three file inputs, in the fixed slot order. */
  function FilesToRead(form: ApplicationForm): seq<Option<ChosenFile>>
  {
    [form.resume, form.coverLetter, form.transcripts]
  }

  /** A slot can be read when no file was chosen or the chosen file loads. */
  predicate Readable(slot: Option<ChosenFile>)
  {
    slot.None? || slot.value.outcome.Loaded?
  }

  /**
   * Reading one slot: no file resolves to `None`, a loaded file to its
   * name and data URL, and a read error rejects.
   */
  function ReadFileAsDataUrl(slot: Option<ChosenFile>): (r: Result<Option<FileData>, ReadError>)
    ensures r.Success? <==> Readable(slot)
    ensures r.Success? ==> (r.value.None? <==> slot.None?)
    ensures r.Success? && r.value.Some? ==>
      r.value.value == FileData(slot.value.name, slot.value.outcome.dataUrl)
  {
    match slot
    case None => Success(None)
    case Some(file) =>
      match file.outcome
      case Loaded(url) => Success(Some(FileData(file.name, url)))
      case Unreadable => Failure(ReadError)
  }

  /**
   * Reading every slot together: succeeds exactly when every slot reads,
   * and then yields one result per slot, in slot order.
   */
  function ReadAll(slots: seq<Option<ChosenFile>>): (r: Result<seq<Option<FileData>>, ReadError>)
    ensures r.Success? <==> forall i | 0 <= i < |slots| :: Readable(slots[i])
    ensures r.Success? ==>
      |r.value| == |slots| &&
      forall i | 0 <= i < |slots| :: ReadFileAsDataUrl(slots[i]) == Success(r.value[i])
  {
    if slots == [] then Success([])
    else
      match ReadFileAsDataUrl(slots[0])
      case Failure(e) => Failure(e)
      case Success(file) =>
        match ReadAll(slots[1..])
        case Failure(e) => Failure(e)
        case Success(rest) => Success([file] + rest)
  }

  /**
   * The list restored from the durable store's value under "applications":
   * a missing or empty value, or one that does not parse, gives the empty
   * list; otherwise the parsed list.
   */
  function LoadedList(stored: Option<string>, parse: string -> Option<seq<Application>>): (apps: seq<Application>)
    ensures stored.None? || stored == Some("") ==> apps == []
    ensures stored.Some? && parse(stored.value).None? ==> apps == []
    ensures apps != [] ==> stored.Some? && stored.value != "" && parse(stored.value) == Some(apps)
    ensures stored.Some? && stored.value != "" && parse(stored.value).Some? ==>
      apps == parse(stored.value).value
  {
    match stored
    case None => []
    case Some(text) =>
      if text == "" then []
      else
        match parse(text)
        case None => []
        case Some(list) => list
  }

  /**
   * The durable store's value after saving `apps`: the serialized list when
   * the write goes through, the previous value when it fails.
   */
  function SavedValue(stored: Option<string>, apps: seq<Application>,
                      serialize: seq<Application> -> string, writeOk: bool): (after: Option<string>)
    ensures writeOk ==> after == Some(serialize(apps))
    ensures !writeOk ==> after == stored
  {
    if writeOk then Some(serialize(apps)) else stored
  }

  /**
   * Saving and then loading again gives back the saved list, provided the
   * serializer and the parser are inverse and a serialized list is never
   * the empty string; a failed write leaves the old list in the store.
   */
  lemma SaveThenLoad(stored: Option<string>, apps: seq<Application>,
                     serialize: seq<Application> -> string,
                     parse: string -> Option<seq<Application>>, writeOk: bool)
    requires forall a :: serialize(a) != "" && parse(serialize(a)) == Some(a)
    ensures writeOk ==> LoadedList(SavedValue(stored, apps, serialize, writeOk), parse) == apps
    ensures !writeOk ==>
      LoadedList(SavedValue(stored, apps, serialize, writeOk), parse) == LoadedList(stored, parse)
  {
  }
}
