/** The photo table (src/app/components/photoList.tsx): description and action cells. */
module PhotoList {
  import opened Types
  import opened Strings

  const DescriptionLimit: nat := 30

  function DescriptionText(row: Photo): (shown: string)
    ensures |row.description| <= DescriptionLimit ==> shown == row.description
    ensures |row.description| > DescriptionLimit ==> shown == row.description[..DescriptionLimit] + "..."
    ensures |shown| <= DescriptionLimit + 3
  {
    Truncate(row.description, DescriptionLimit)
  }

  /** The action cell: a delete button and a download link to the image. */
  datatype RowActions = RowActions(deleteDisabled: bool, deleteTarget: string, download: string)

  function Actions(row: Photo, singlePhotoLoading: bool): (a: RowActions)
    ensures a.deleteDisabled <==> singlePhotoLoading
    ensures a.deleteTarget == row.id && a.download == row.image
  {
    RowActions(singlePhotoLoading, row.id, row.image)
  }
}
