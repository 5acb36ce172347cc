/** The project table (src/app/components/projectList.tsx): title, description, status and
    action cells. */
module ProjectList {
  import opened Types
  import opened Strings
  import opened Badges

  const TitleLimit: nat := 20
  const DescriptionLimit: nat := 30

  function TitleText(row: Project): (shown: string)
    ensures |row.title| <= TitleLimit ==> shown == row.title
    ensures |row.title| > TitleLimit ==> shown == row.title[..TitleLimit] + "..."
    ensures |shown| <= TitleLimit + 3
  {
    Truncate(row.title, TitleLimit)
  }

  function DescriptionText(row: Project): (shown: string)
    ensures |row.description| <= DescriptionLimit ==> shown == row.description
    ensures |row.description| > DescriptionLimit ==> shown == row.description[..DescriptionLimit] + "..."
    ensures |shown| <= DescriptionLimit + 3
  {
    Truncate(row.description, DescriptionLimit)
  }

  /** `statusBodyTemplate`: the same lower-case switch as the metadata table. */
  function StatusChip(row: Project): (b: Badge)
    ensures b == Blank <==> StatusOf(row.status).None?
    ensures forall s: Status :: row.status == StatusText(s) ==> b == Badge(Label(s), ToneOf(s))
  {
    StatusBadge(row.status)
  }

  /** The action cell holds only a delete button. */
  datatype RowActions = RowActions(deleteDisabled: bool, deleteTarget: string)

  function Actions(row: Project, singleProjectLoading: bool): (a: RowActions)
    ensures a.deleteDisabled <==> singleProjectLoading
    ensures a.deleteTarget == row.id
  {
    RowActions(singleProjectLoading, row.id)
  }
}
