/** The metadata table (src/app/components/metadataList.tsx): what each row shows in its
    title, approval and action cells. */
module MetadataList {
  import opened Types
  import opened Strings
  import opened Badges

  const TitleLimit: nat := 20

  /** The title cell: the title, cut to its first 20 characters plus "..." when longer. */
  function TitleText(row: Metadata): (shown: string)
    ensures |row.title| <= TitleLimit ==> shown == row.title
    ensures |row.title| > TitleLimit ==> shown == row.title[..TitleLimit] + "..."
    ensures |shown| <= TitleLimit + 3
    ensures var k := if |row.title| < TitleLimit then |row.title| else TitleLimit;
      shown[..k] == row.title[..k]
  {
    Truncate(row.title, TitleLimit)
  }

  /** The approval cell switches on `status`, not on the column's declared field. */
  function ApprovalChip(row: Metadata): (b: Badge)
    ensures b == Blank <==> StatusOf(row.status).None?
    ensures forall s: Status :: row.status == StatusText(s) ==> b == Badge(Label(s), ToneOf(s))
  {
    StatusBadge(row.status)
  }

  /** The action cell: a delete button and a download link. */
  datatype RowActions = RowActions(deleteDisabled: bool, deleteTarget: string, download: string)

  /** `iconsBodyTemplate`: delete is disabled exactly while a delete is in progress and asks
      for the row's own id; the link targets the row's file. */
  function Actions(row: Metadata, singleMetadataLoading: bool): (a: RowActions)
    ensures a.deleteDisabled <==> singleMetadataLoading
    ensures a.deleteTarget == row.id && a.download == row.file
  {
    RowActions(singleMetadataLoading, row.id, row.file)
  }
}
