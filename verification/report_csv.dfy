/** The four CSV files the report writes, each as its header line followed by
    its data rows. File paths, the `;` delimiter and quoting are left to the
    writer and not modelled. */
module ReportCsv {
  import opened ProjectReport

  /** A written file: its base name and its lines, each a list of cells. */
  datatype CsvFile = CsvFile(name: string, lines: seq<seq<Cell>>)

  function HeaderCells(columns: seq<string>): (r: seq<Cell>)
    ensures |r| == |columns|
    ensures forall i :: 0 <= i < |columns| ==> r[i] == Text(columns[i])
  {
    seq(|columns|, i requires 0 <= i < |columns| => Text(columns[i]))
  }

  /** Every line of `lines` has `width` cells. */
  ghost predicate Rectangular(lines: seq<seq<Cell>>, width: int) {
    forall k :: 0 <= k < |lines| ==> |lines[k]| == width
  }

  /** `createCSVProject`: the header and the single project row. */
  function ProjectCsv(rep: Report): (f: CsvFile)
    ensures f.name == "01_project.csv"
    ensures f.lines == [HeaderCells(ProjectColumns), rep.project.Cells()]
    ensures Rectangular(f.lines, |ProjectColumns|)
  {
    CsvFile("01_project.csv", [HeaderCells(ProjectColumns), rep.project.Cells()])
  }

  /** `createCSVLayers`: the header, then one line per layer row, in order. */
  function LayersCsv(rep: Report): (f: CsvFile)
    ensures f.name == "02_layers.csv"
    ensures |f.lines| == 1 + |rep.layers| && f.lines[0] == HeaderCells(LayerColumns)
    ensures forall i :: 0 <= i < |rep.layers| ==> f.lines[1 + i] == rep.layers[i].Cells()
    ensures Rectangular(f.lines, |LayerColumns|)
  {
    CsvFile("02_layers.csv",
      [HeaderCells(LayerColumns)] + seq(|rep.layers|, i requires 0 <= i < |rep.layers| => rep.layers[i].Cells()))
  }

  /** `createCSVLayerFields`: the header, then one line per field row, in order. */
  function FieldsCsv(rep: Report): (f: CsvFile)
    ensures f.name == "03_fields.csv"
    ensures |f.lines| == 1 + |rep.fields| && f.lines[0] == HeaderCells(FieldColumns)
    ensures forall i :: 0 <= i < |rep.fields| ==> f.lines[1 + i] == rep.fields[i].Cells()
    ensures Rectangular(f.lines, |FieldColumns|)
  {
    CsvFile("03_fields.csv",
      [HeaderCells(FieldColumns)] + seq(|rep.fields|, i requires 0 <= i < |rep.fields| => rep.fields[i].Cells()))
  }

  /** `createCSVLayouts`: the header, then one line per layout row, in order. */
  function LayoutsCsv(rep: Report): (f: CsvFile)
    ensures f.name == "04_layouts.csv"
    ensures |f.lines| == 1 + |rep.layouts| && f.lines[0] == HeaderCells(LayoutColumns)
    ensures forall i :: 0 <= i < |rep.layouts| ==> f.lines[1 + i] == rep.layouts[i].Cells()
    ensures Rectangular(f.lines, |LayoutColumns|)
  {
    CsvFile("04_layouts.csv",
      [HeaderCells(LayoutColumns)] + seq(|rep.layouts|, i requires 0 <= i < |rep.layouts| => rep.layouts[i].Cells()))
  }
}
