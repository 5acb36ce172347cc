/** The records the dashboard moves between the backend, its lists and its forms.
    The payload types used by the pages are imported from src/app/utils/types.ts but are
    not declared there; their shapes below are the ones the pages and modals build and read. */
module Types {
  import opened Wrappers

  /** Moderation state of a record; on the wire it is one of three lower-case words. */
  datatype Status = Pending | Approved | Rejected

  function StatusText(s: Status): string {
    match s
    case Pending => "pending"
    case Approved => "approved"
    case Rejected => "rejected"
  }

  /** The wire word back to a status, if it is one of the three. */
  function StatusOf(t: string): (r: Option<Status>)
    ensures r.Some? ==> StatusText(r.value) == t
  {
    if t == "pending" then Some(Pending)
    else if t == "approved" then Some(Approved)
    else if t == "rejected" then Some(Rejected)
    else None
  }

  /** Reading back the word written for a status gives that status. */
  lemma StatusRoundTrip(s: Status)
    ensures StatusOf(StatusText(s)) == Some(s)
  {
  }

  /** The session's profile (`User` in utils/types.ts). */
  datatype User = User(
    id: string,
    username: string,
    firstName: string,
    lastName: string,
    fullName: string,
    email: string,
    gender: string,
    organization: string,
    designation: string,
    photo: string)

  /** A point in time; `iso` is what `toISOString()` prints for it. */
  datatype Date = Date(iso: string)

  /** A browser `File` chosen in an upload widget. */
  datatype File = File(name: string)

  /** A metadata record; `status` is the wire text, which the server may set to any word. */
  datatype Metadata = Metadata(
    id: string,
    title: string,
    email: string,
    period: string,
    description: string,
    lake: string,
    uploader: string,
    file: string,
    status: string)

  datatype Project = Project(
    id: string,
    title: string,
    description: string,
    longitude: string,
    latitude: string,
    lake: string,
    uploader: string,
    status: string)

  /** Photos carry no moderation status in this front end. */
  datatype Photo = Photo(
    id: string,
    captureDate: Option<Date>,
    lake: string,
    description: string,
    uploader: string,
    image: string)

  /** A publication as the article form builds it and the article list reads it. */
  datatype Article = Article(
    id: string,
    title: string,
    authors: seq<string>,
    abstractText: string,
    publicationDate: Date,
    keywords: string,
    selectedLakes: seq<string>,
    approved: string)

  function MetadataId(m: Metadata): string { m.id }
  function ProjectId(p: Project): string { p.id }
  function PhotoId(p: Photo): string { p.id }
  function ArticleId(a: Article): string { a.id }
}
