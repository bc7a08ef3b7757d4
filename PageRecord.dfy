/** The `begging_pages` table as the page components see it: the row they
    read, the form fields they fill from it, the record they write back, and
    the requests they send. Shared by the create, edit, my-page and donate
    views. */
module PageRecord {
  import opened Common

  const GifMimeType: string := "image/gif"
  const EmptyReasonMessage: string := "Please enter what you are begging for"
  const SaveFailedMessage: string := "Failed to save your page"

  /** A row of the table; the text columns may be null. */
  datatype Row = Row(id: Id, userId: Id, title: Option<string>, reason: Option<string>, gifUrl: Option<string>)

  /** The text fields of the create and edit forms. The form's `reason` is
      what the user begs for and is stored as the row's `title`; the form's
      `justification` is stored as the row's `reason`. */
  datatype Fields = Fields(reason: string, justification: string, gifUrl: string)

  /** The form fields a fetched row fills in, with `''` for a null column. */
  function FieldsOf(row: Row): Fields
  {
    Fields(OrEmpty(row.title), OrEmpty(row.reason), OrEmpty(row.gifUrl))
  }

  /** The record a save writes (`updated_at` is not modelled). */
  datatype PageData = PageData(userId: Id, title: string, reason: string, gifUrl: string)

  /** The record a save builds from the form fields and the GIF URL it settled on. */
  function PageDataOf(userId: Id, fields: Fields, finalGifUrl: string): PageData
  {
    PageData(userId, fields.reason, fields.justification, finalGifUrl)
  }

  /** The row the table holds for page `id` once `data` was written to it. */
  function Stored(id: Id, data: PageData): Row
  {
    Row(id, data.userId, Some(data.title), Some(data.reason), Some(data.gifUrl))
  }

  /** The GIF URL a save uses: the dropped file's data URL when a file was
      dropped, else the URL already in the form. */
  function FinalGifUrl(gif: Option<File>, gifUrl: string, dataUrl: string): (u: string)
    ensures gif.None? ==> u == gifUrl
    ensures gif.Some? ==> u == dataUrl
  {
    if gif.Some? then dataUrl else gifUrl
  }

  /** Saving the form and loading the page back gives the same form. */
  lemma SaveThenLoad(id: Id, userId: Id, fields: Fields)
    ensures FieldsOf(Stored(id, PageDataOf(userId, fields, fields.gifUrl))) == fields
  {
  }

  /** Loading a page and saving it unedited writes its text columns back,
      with null columns written as `''`; a row without null columns comes
      back unchanged. */
  lemma LoadThenSave(row: Row)
    ensures PageDataOf(row.userId, FieldsOf(row), FieldsOf(row).gifUrl)
            == PageData(row.userId, OrEmpty(row.title), OrEmpty(row.reason), OrEmpty(row.gifUrl))
    ensures row.title.Some? && row.reason.Some? && row.gifUrl.Some? ==>
              Stored(row.id, PageDataOf(row.userId, FieldsOf(row), FieldsOf(row).gifUrl)) == row
  {
  }

  /** How a `.single()` lookup by user came back. */
  datatype Lookup = Existing(row: Row) | NoPage | LookupFailed(error: PgError)

  /** Tells the "no rows" error apart from the other errors. */
  function Classify(r: Response<Row>): (l: Lookup)
    ensures l.Existing? <==> r.Ok?
    ensures l.Existing? ==> l.row == r.data
    ensures l.NoPage? <==> r.Err? && r.error.code == NoRowsCode
    ensures l.LookupFailed? ==> l.error == r.error
  {
    match r
    case Ok(row) => Existing(row)
    case Err(e) => if e.code == NoRowsCode then NoPage else LookupFailed(e)
  }

  /** `.from('begging_pages').select(columns).eq(column, value).single()`. */
  datatype PageSelect = PageSelect(columns: string, column: string, value: Id)

  /** The lookup of the signed-in user's page. */
  function PageOfUser(user: User): PageSelect
  {
    PageSelect("*", "user_id", user.id)
  }

  /** The two writes a save can send: an insert, or an update filtered on `id`. */
  datatype PageWrite = InsertPage(data: PageData) | UpdatePage(data: PageData, id: Id)

  /** Update the known page by its id, or insert a new one. */
  function WriteFor(pageId: Option<Id>, data: PageData): (w: PageWrite)
    ensures w.data == data
    ensures w.UpdatePage? <==> pageId.Some?
    ensures w.UpdatePage? ==> w.id == pageId.value
  {
    if pageId.Some? then UpdatePage(data, pageId.value) else InsertPage(data)
  }

  /** `.delete().eq('id', id).eq('user_id', userId)`. */
  datatype PageDelete = PageDelete(id: Id, userId: Id)

  /** A file handed to the drop zone. */
  datatype File = File(name: string, mimeType: string)

  /** `onDrop`: only the first file is looked at, and only a GIF is taken. */
  function AcceptedGif(files: seq<File>): (f: Option<File>)
    ensures f.Some? <==> |files| > 0 && files[0].mimeType == GifMimeType
    ensures f.Some? ==> f.value == files[0]
  {
    if |files| > 0 && files[0].mimeType == GifMimeType then Some(files[0]) else None
  }

  /** The checks a save makes before writing, in order: signed in first, then
      a reason that is not only whitespace. `None` lets the save go ahead. */
  function SaveError(signedIn: bool, reason: string, loginMessage: string): (e: Option<string>)
    ensures e.None? <==> signedIn && exists i :: 0 <= i < |reason| && !IsWhitespace(reason[i])
    ensures !signedIn ==> e == Some(loginMessage)
    ensures signedIn && AllWhitespace(reason) ==> e == Some(EmptyReasonMessage)
  {
    TrimEmptyIffBlank(reason);
    if !signedIn then Some(loginMessage)
    else if IsBlank(reason) then Some(EmptyReasonMessage)
    else None
  }
}
