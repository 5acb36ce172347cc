/** The approval chip the list components draw: a label and a colour, chosen by a switch on the
    row's status text. Metadata and project rows carry the lower-case wire word; article rows
    carry a capitalised word (src/app/components/articleList.tsx). Any other text gives an
    empty, unstyled chip. */
module Badges {
  import opened Wrappers
  import opened Types

  /** The chip's colour class: none, green, amber or pink. */
  datatype Tone = Plain | Green | Amber | Pink

  datatype Badge = Badge(caption: string, tone: Tone)

  const Blank := Badge("", Plain)

  /** The label each status is shown with. */
  function Label(s: Status): string {
    match s
    case Approved => "Approved"
    case Pending => "Pending"
    case Rejected => "Rejected"
  }

  function ToneOf(s: Status): Tone {
    match s
    case Approved => Green
    case Pending => Amber
    case Rejected => Pink
  }

  /** The chip of `statusBodyTemplate`/`approvedBodyTemplate` in the metadata and project
      lists, which switch on the lower-case wire word. */
  function StatusBadge(status: string): (b: Badge)
    ensures b == Blank <==> StatusOf(status).None?
    ensures StatusOf(status).Some? ==> b == Badge(Label(StatusOf(status).value), ToneOf(StatusOf(status).value))
  {
    if status == "approved" then Badge("Approved", Green)
    else if status == "pending" then Badge("Pending", Amber)
    else if status == "rejected" then Badge("Rejected", Pink)
    else Blank
  }

  /** The chip of the article list, which switches on the capitalised word in `approved`. */
  function ApprovalBadge(approved: string): (b: Badge)
    ensures b == Blank <==> (forall s: Status :: approved != Label(s))
    ensures forall s: Status :: approved == Label(s) ==> b == Badge(Label(s), ToneOf(s))
  {
    if approved == "Approved" then assert approved == Label(Approved); Badge("Approved", Green)
    else if approved == "Pending" then assert approved == Label(Pending); Badge("Pending", Amber)
    else if approved == "Rejected" then assert approved == Label(Rejected); Badge("Rejected", Pink)
    else Blank
  }

  /** The two switches agree on a status written in each one's own spelling, and each shows
      its own label back; a status written in the other spelling gives the blank chip. */
  lemma BadgesAgree(s: Status)
    ensures StatusBadge(StatusText(s)) == ApprovalBadge(Label(s)) == Badge(Label(s), ToneOf(s))
    ensures ApprovalBadge(StatusBadge(StatusText(s)).caption) == StatusBadge(StatusText(s))
    ensures StatusBadge(Label(s)) == Blank && ApprovalBadge(StatusText(s)) == Blank
  {
    StatusRoundTrip(s);
  }

  /** A chip that is not blank tells the status apart: equal chips come from the same word. */
  lemma StatusBadgeInjective(a: string, b: string)
    requires StatusBadge(a) == StatusBadge(b) != Blank
    ensures a == b
  {
    var sa := StatusOf(a).value;
    var sb := StatusOf(b).value;
    assert Label(sa) == Label(sb);
    assert sa == sb;
  }
}
