/** The arguments both backends give the document-export procedure
    template. The select arguments are the id lists as given; the pivot
    arguments are the same lists without their first element. The template
    text and its formatting are not modelled. */
module Export {
  import opened Base
  import opened Text
  import opened Graph

  /** The slice `xs[1:]`: everything after the first element, and nothing
      for an empty input. */
  function Pivot<T>(xs: seq<T>): (r: seq<T>)
    ensures xs == [] ==> r == []
    ensures xs != [] ==> [xs[0]] + r == xs
    ensures |r| == if xs == [] then 0 else |xs| - 1
  {
    if xs == [] then [] else xs[1..]
  }

  datatype ExportArguments<C, I> = ExportArguments(
    action: string,
    headerColumns: C,
    detailColumns: C,
    selectHeaderPropIds: seq<I>,
    pivotHeaderPropIds: seq<I>,
    selectDetailPropIds: seq<I>,
    pivotDetailPropIds: seq<I>)

  /** The named arguments of `create_doc_export_by_prop_sproc`'s template:
      action and columns passed through, each id list passed as its select
      argument and, without its first element, as its pivot argument. */
  function DocExportArguments<C, I>(action: string, headerColumns: C, detailColumns: C,
                                    headerIds: seq<I>, detailIds: seq<I>): (r: ExportArguments<C, I>)
    ensures r.action == action && r.headerColumns == headerColumns && r.detailColumns == detailColumns
    ensures r.selectHeaderPropIds == headerIds && r.selectDetailPropIds == detailIds
    ensures headerIds != [] ==> [headerIds[0]] + r.pivotHeaderPropIds == r.selectHeaderPropIds
    ensures detailIds != [] ==> [detailIds[0]] + r.pivotDetailPropIds == r.selectDetailPropIds
    ensures headerIds == [] ==> r.pivotHeaderPropIds == []
    ensures detailIds == [] ==> r.pivotDetailPropIds == []
  {
    ExportArguments(action, headerColumns, detailColumns,
      headerIds, Pivot(headerIds), detailIds, Pivot(detailIds))
  }

  /** Applied to a rendered, non-empty column list, the pivot slice removes
      exactly the comma that opens the first fragment. */
  lemma PivotDropsLeadingComma(g: Graph, creation: CreationType, column: ColumnType, pass: Pass)
    requires Render(g, creation, column, pass).Success?
    requires Columns(g, column) != []
    ensures var s := Render(g, creation, column, pass).value;
      s != [] && s == [','] + Pivot(s)
  {
    var s := Render(g, creation, column, pass).value;
    assert s + Terminator == Concat(Fragments(g, creation, pass, Columns(g, column)).value);
    assert s[0] == ',';
  }
}
