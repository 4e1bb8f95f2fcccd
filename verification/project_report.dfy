/** The report builder: the project name, a layer's `path_url`, and the four
    row collections (project, layers, vector-layer fields, layouts) the
    `QProjectReport` constructor assembles from a project. */
module ProjectReport {
  import opened Results
  import opened PyStrings
  import opened Seqs
  import opened Qgis

  /** The Python exceptions the constructor can raise. */
  datatype PyError =
    | IndexError      // `source().split('url=')[1]` on a source without `url=`
    | KeyError(key: int)  // a layout type missing from the type-name dictionary

  /** A value in a report row: a Python `str`, `int`, `bool`, or a
      one-element tuple (what a trailing comma in an assignment produces). */
  datatype Cell = Text(s: string) | Number(n: int) | Flag(b: bool) | Single(item: Cell)

  const ProjectColumns: seq<string> :=
    ["title", "fileName", "homePath", "crs", "layers_count", "creationDate", "lastSaveDate"]
  const LayerColumns: seq<string> :=
    ["name", "crs", "path_url", "storage", "encoding", "geometry_type", "features_count"]
  const FieldColumns: seq<string> :=
    ["layer", "field_name", "display_name", "alias", "comment", "type_name", "type", "length", "precision"]
  const LayoutColumns: seq<string> :=
    ["layout_name", "layout_type", "atlas", "atlas_coverageLayer_name"]

  datatype ProjectRow = ProjectRow(
    title: string,
    fileName: string,
    homePath: string,
    crs: string,
    layersCount: int,
    creationDate: string,
    lastSaveDate: string)
  {
    /** The value written under the header `column`. */
    function Column(column: string): Cell
      requires column in ProjectColumns
    {
      if column == "title" then Text(title)
      else if column == "fileName" then Text(fileName)
      else if column == "homePath" then Text(homePath)
      else if column == "crs" then Text(crs)
      else if column == "layers_count" then Number(layersCount)
      else if column == "creationDate" then Text(creationDate)
      else Text(lastSaveDate)
    }

    /** The row as written: each cell sits under its own header. */
    function Cells(): (r: seq<Cell>)
      ensures |r| == |ProjectColumns|
      ensures forall k :: 0 <= k < |ProjectColumns| ==> r[k] == Column(ProjectColumns[k])
    {
      [Text(title), Text(fileName), Text(homePath), Text(crs), Number(layersCount),
       Text(creationDate), Text(lastSaveDate)]
    }
  }

  datatype LayerRow = LayerRow(
    name: string,
    crs: string,
    pathUrl: string,
    storage: string,
    encoding: string,
    geometryType: string,
    featuresCount: Cell)
  {
    /** The value written under the header `column`. */
    function Column(column: string): Cell
      requires column in LayerColumns
    {
      if column == "name" then Text(name)
      else if column == "crs" then Text(crs)
      else if column == "path_url" then Text(pathUrl)
      else if column == "storage" then Text(storage)
      else if column == "encoding" then Text(encoding)
      else if column == "geometry_type" then Text(geometryType)
      else featuresCount
    }

    /** The row as written: each cell sits under its own header. */
    function Cells(): (r: seq<Cell>)
      ensures |r| == |LayerColumns|
      ensures forall k :: 0 <= k < |LayerColumns| ==> r[k] == Column(LayerColumns[k])
    {
      [Text(name), Text(crs), Text(pathUrl), Text(storage), Text(encoding),
       Text(geometryType), featuresCount]
    }
  }

  datatype FieldRow = FieldRow(
    layer: string,
    fieldName: string,
    displayName: string,
    alias: string,
    comment: Cell,
    typeName: string,
    fieldType: int,
    length: int,
    precision: Cell)
  {
    /** The value written under the header `column`. */
    function Column(column: string): Cell
      requires column in FieldColumns
    {
      if column == "layer" then Text(layer)
      else if column == "field_name" then Text(fieldName)
      else if column == "display_name" then Text(displayName)
      else if column == "alias" then Text(alias)
      else if column == "comment" then comment
      else if column == "type_name" then Text(typeName)
      else if column == "type" then Number(fieldType)
      else if column == "length" then Number(length)
      else precision
    }

    /** The row as written: each cell sits under its own header. */
    function Cells(): (r: seq<Cell>)
      ensures |r| == |FieldColumns|
      ensures forall k :: 0 <= k < |FieldColumns| ==> r[k] == Column(FieldColumns[k])
    {
      [Text(layer), Text(fieldName), Text(displayName), Text(alias), comment,
       Text(typeName), Number(fieldType), Number(length), precision]
    }
  }

  datatype LayoutRow = LayoutRow(
    layoutName: string,
    layoutType: string,
    atlas: bool,
    atlasCoverageLayerName: string)
  {
    /** The value written under the header `column`. */
    function Column(column: string): Cell
      requires column in LayoutColumns
    {
      if column == "layout_name" then Text(layoutName)
      else if column == "layout_type" then Text(layoutType)
      else if column == "atlas" then Flag(atlas)
      else Text(atlasCoverageLayerName)
    }

    /** The row as written: each cell sits under its own header. */
    function Cells(): (r: seq<Cell>)
      ensures |r| == |LayoutColumns|
      ensures forall k :: 0 <= k < |LayoutColumns| ==> r[k] == Column(LayoutColumns[k])
    {
      [Text(layoutName), Text(layoutType), Flag(atlas), Text(atlasCoverageLayerName)]
    }
  }

  /** What a successfully constructed `QProjectReport` holds. */
  datatype Report = Report(
    projectName: string,
    project: ProjectRow,
    layers: seq<LayerRow>,
    fields: seq<FieldRow>,
    layouts: seq<LayoutRow>)

  // ---------------------------------------------------------------------
  // Project name

  /** `fileName.split('/')[-1].split('.')[0]`: the file's base name up to its
      first dot. */
  function ProjectName(fileName: string): (r: string)
    ensures '/' !in r && '.' !in r
    ensures exists k :: AfterLast(fileName, '/', k)
    ensures forall k :: AfterLast(fileName, '/', k) ==>
              r <= fileName[k..] && (k + |r| == |fileName| || fileName[k + |r|] == '.')
  {
    var segments := Split(fileName, "/");
    var last := segments[|segments| - 1];
    var r := Split(last, ".")[0];
    SplitLastPiece(fileName, '/');
    SplitPiecesFree(last, ".");
    SplitFirstPiece(last, ".");
    NoOccurrenceOfChar(r, '.');
    LastSegmentName(fileName, last, r);
    assert AfterLast(fileName, '/', |fileName| - |last|);
    r
  }

  /** The name cut from the last segment starts that segment and is followed
      by a dot or by the end of the file name. */
  lemma LastSegmentName(fileName: string, last: string, r: string)
    requires |last| <= |fileName| && last == fileName[|fileName| - |last|..]
    requires AfterLast(fileName, '/', |fileName| - |last|)
    requires UpToFirst(last, ".", r)
    ensures '/' !in r
    ensures forall k :: AfterLast(fileName, '/', k) ==>
              r <= fileName[k..] && (k + |r| == |fileName| || fileName[k + |r|] == '.')
  {
  }

  // ---------------------------------------------------------------------
  // getURL

  const UrlKey: string := "url="

  /** The layers whose `path_url` is their whole source: vector layers and
      rasters read through GDAL. */
  predicate FullSource(l: Layer) {
    l.VectorLayer? || (l.RasterLayer? && l.providerType == "gdal")
  }

  /** `getURL`: the whole source, or the text between the first `url=` and
      the next one (to the end when there is no next one). */
  function GetUrl(l: Layer): (r: Result<string, PyError>)
    ensures FullSource(l) ==> r == Ok(l.source)
    ensures !FullSource(l) ==> (r.Ok? <==> !NoOccurrence(l.source, UrlKey))
    ensures !FullSource(l) && r.Ok? ==>
              forall i :: FirstOccurrence(l.source, UrlKey, i) ==>
                UpToFirst(l.source[i + |UrlKey|..], UrlKey, r.value)
    ensures r.Err? ==> r.error == IndexError
  {
    if l.VectorLayer? then Ok(l.source)
    else if l.RasterLayer? && l.providerType == "gdal" then Ok(l.source)
    else
      var parts := Split(l.source, UrlKey);
      GetUrlSegment(l.source, parts);
      if |parts| > 1 then Ok(parts[1]) else Err(IndexError)
  }

  /** The second piece of `split('url=')` exists exactly when `url=` occurs,
      and is the text after the first `url=` up to the next one. */
  lemma GetUrlSegment(source: string, parts: seq<string>)
    requires parts == Split(source, UrlKey)
    ensures |parts| > 1 <==> !NoOccurrence(source, UrlKey)
    ensures |parts| > 1 ==>
              forall i :: FirstOccurrence(source, UrlKey, i) ==>
                UpToFirst(source[i + |UrlKey|..], UrlKey, parts[1])
  {
  }

  // ---------------------------------------------------------------------
  // Rows

  /** `project_data`: the project's properties and its number of layers. */
  function ProjectRowOf(p: Project): (r: ProjectRow)
    ensures r.title == p.title && r.fileName == p.fileName && r.homePath == p.homePath
    ensures r.crs == p.crs && r.layersCount == |p.layers|
    ensures r.creationDate == p.creationDate && r.lastSaveDate == p.lastSaveDate
  {
    ProjectRow(p.title, p.fileName, p.homePath, p.crs, |p.layers|, p.creationDate, p.lastSaveDate)
  }

  /** One entry of `layers_data`; only vector layers report storage through
      their data provider, encoding, geometry and feature count. */
  function LayerRowOf(l: Layer): (r: Result<LayerRow, PyError>)
    ensures r.Ok? <==> GetUrl(l).Ok?
    ensures r.Err? ==> r.error == IndexError
    ensures r.Ok? ==> r.value.name == l.name && r.value.crs == l.crs && r.value.pathUrl == GetUrl(l).value
    ensures r.Ok? && l.VectorLayer? ==>
              && r.value.storage == l.storageType
              && r.value.encoding == l.encoding
              && r.value.geometryType == l.geometry
              && r.value.featuresCount == Number(l.featureCount)
    ensures r.Ok? && !l.VectorLayer? ==>
              && r.value.storage == l.providerType
              && r.value.encoding == ""
              && r.value.geometryType == ""
              && r.value.featuresCount == Text("")
  {
    var isVector := l.VectorLayer?;
    var pathUrl :- GetUrl(l);
    Ok(LayerRow(
      l.name,
      l.crs,
      pathUrl,
      if isVector then l.storageType else l.providerType,
      if isVector then l.encoding else "",
      if isVector then l.geometry else "",
      if isVector then Number(l.featureCount) else Text("")))
  }

  /** One entry of `layer_fields_data`. `comment` and `precision` are
      one-element tuples because of the trailing commas in their assignments. */
  function FieldRowOf(layerName: string, f: Field): (r: FieldRow)
    ensures r.layer == layerName && r.fieldName == f.name
    ensures r.displayName == f.displayName && r.alias == f.alias
    ensures r.typeName == f.typeName && r.fieldType == f.typeCode && r.length == f.length
    ensures r.comment == Single(Text(f.comment)) && r.precision == Single(Number(f.precision))
  {
    FieldRow(layerName, f.name, f.displayName, f.alias, Single(Text(f.comment)),
             f.typeName, f.typeCode, f.length, Single(Number(f.precision)))
  }

  /** The field rows one layer contributes, in field order. */
  function FieldRowsOf(l: Layer): seq<FieldRow> {
    if l.VectorLayer? then
      seq(|l.fields|, j requires 0 <= j < |l.fields| => FieldRowOf(l.name, l.fields[j]))
    else []
  }

  function FieldRows(layers: seq<Layer>): seq<FieldRow> {
    FlatMap(FieldRowsOf, layers)
  }

  /** The number of fields a layer has in the report. */
  function FieldCount(l: Layer): nat {
    if l.VectorLayer? then |l.fields| else 0
  }

  function TotalFields(layers: seq<Layer>): nat
    decreases |layers|
  {
    if |layers| == 0 then 0 else FieldCount(layers[0]) + TotalFields(layers[1..])
  }

  const LayoutTypeNames: map<int, string> := map[0 := "PrintLayout", 1 := "Report"]

  predicate KnownLayoutType(t: int) {
    t == 0 || t == 1
  }

  /** `dict_type_layouts[t]`. */
  function LayoutTypeName(t: int): (r: Result<string, PyError>)
    ensures r.Ok? <==> KnownLayoutType(t)
    ensures r.Err? ==> r.error == KeyError(t)
    ensures t == 0 ==> r == Ok("PrintLayout")
    ensures t == 1 ==> r == Ok("Report")
  {
    if t in LayoutTypeNames then Ok(LayoutTypeNames[t]) else Err(KeyError(t))
  }

  /** One entry of `layouts_data`. Only a print layout with a coverage layer
      is an atlas, and only an atlas names its coverage layer. */
  function LayoutRowOf(layout: Layout): (r: Result<LayoutRow, PyError>)
    ensures r.Ok? <==> KnownLayoutType(layout.layoutType)
    ensures r.Err? ==> r.error == KeyError(layout.layoutType)
    ensures r.Ok? ==> r.value.layoutName == layout.name
    ensures r.Ok? ==> (r.value.layoutType == "PrintLayout" <==> layout.layoutType == 0)
    ensures r.Ok? ==> (r.value.layoutType == "Report" <==> layout.layoutType == 1)
    ensures r.Ok? ==> (r.value.atlas <==> layout.layoutType == 0 && layout.coverageLayer.Some?)
    ensures r.Ok? && r.value.atlas ==> r.value.atlasCoverageLayerName == layout.coverageLayer.value
    ensures r.Ok? && !r.value.atlas ==> r.value.atlasCoverageLayerName == ""
  {
    var layoutType :- LayoutTypeName(layout.layoutType);
    var atlas := layout.layoutType == 0 && layout.coverageLayer.Some?;
    var coverageName := if layout.layoutType == 0 && atlas then layout.coverageLayer.value else "";
    Ok(LayoutRow(layout.name, layoutType, atlas, coverageName))
  }

  /** A layer whose `path_url` can be computed. */
  ghost predicate ResolvesUrl(l: Layer) {
    FullSource(l) || !NoOccurrence(l.source, UrlKey)
  }

  /** The `QProjectReport` constructor: the layer loop (layer rows and field
      rows) runs first, then the layout loop; the first exception aborts it. */
  function Build(p: Project): (r: Result<Report, PyError>)
    ensures r.Ok? <==>
              && (forall i :: 0 <= i < |p.layers| ==> ResolvesUrl(p.layers[i]))
              && (forall k :: 0 <= k < |p.layouts| ==> KnownLayoutType(p.layouts[k].layoutType))
    ensures (exists i :: 0 <= i < |p.layers| && !ResolvesUrl(p.layers[i])) ==> r == Err(IndexError)
    ensures (forall i :: 0 <= i < |p.layers| ==> ResolvesUrl(p.layers[i])) ==>
              forall k :: 0 <= k < |p.layouts| && !KnownLayoutType(p.layouts[k].layoutType)
                          && (forall j :: 0 <= j < k ==> KnownLayoutType(p.layouts[j].layoutType)) ==>
                r == Err(KeyError(p.layouts[k].layoutType))
    ensures r.Ok? ==>
              && r.value.projectName == ProjectName(p.fileName)
              && |r.value.layers| == |p.layers|
              && |r.value.layouts| == |p.layouts|
              && r.value.project.layersCount == |r.value.layers|
  {
    var layerRows :- MapAll(LayerRowOf, p.layers);
    var layoutRows :- MapAll(LayoutRowOf, p.layouts);
    Ok(Report(ProjectName(p.fileName), ProjectRowOf(p), layerRows, FieldRows(p.layers), layoutRows))
  }

  /** The constructor as written: a `for` loop over the layers appending to
      the layer and field lists, then a `for` loop over the layouts. It
      computes exactly `Build`. */
  method Construct(p: Project) returns (r: Result<Report, PyError>)
    ensures r == Build(p)
  {
    var projectName := ProjectName(p.fileName);
    var projectRow := ProjectRowOf(p);
    var layerTables :- CollectLayers(p.layers);
    var layoutRows :- CollectLayouts(p.layouts);
    r := Ok(Report(projectName, projectRow, layerTables.0, layerTables.1, layoutRows));
  }

  /** The layer loop: one layer row per layer and, for a vector layer, its
      field rows; the first layer without a usable source aborts it. */
  method CollectLayers(layers: seq<Layer>) returns (r: Result<(seq<LayerRow>, seq<FieldRow>), PyError>)
    ensures r.Ok? <==> MapAll(LayerRowOf, layers).Ok?
    ensures r.Err? ==> r.error == MapAll(LayerRowOf, layers).error
    ensures r.Ok? ==> r.value.0 == MapAll(LayerRowOf, layers).value && r.value.1 == FieldRows(layers)
  {
    var layerRows: seq<LayerRow> := [];
    var fieldRows: seq<FieldRow> := [];
    for i := 0 to |layers|
      invariant |layerRows| == i
      invariant forall k :: 0 <= k < i ==> LayerRowOf(layers[k]) == Ok(layerRows[k])
      invariant fieldRows == FieldRows(layers[..i])
    {
      var layer := layers[i];
      var row := LayerRowOf(layer);
      if row.Err? {
        return Err(row.error);
      }
      layerRows := layerRows + [row.value];
      if layer.VectorLayer? {
        var rows := CollectFields(layer);
        fieldRows := fieldRows + rows;
      }
      assert layers[..i + 1] == layers[..i] + [layer];
      FlatMapSnoc(FieldRowsOf, layers[..i], layer);
    }
    assert layers[..|layers|] == layers;
    var all := MapAll(LayerRowOf, layers);
    assert forall k :: 0 <= k < |layers| ==> LayerRowOf(layers[k]).Ok?;
    assert all.value == layerRows;
    r := Ok((layerRows, fieldRows));
  }

  /** The field loop of one vector layer. */
  method CollectFields(layer: Layer) returns (rows: seq<FieldRow>)
    requires layer.VectorLayer?
    ensures |rows| == |layer.fields|
    ensures forall j :: 0 <= j < |rows| ==> rows[j] == FieldRowOf(layer.name, layer.fields[j])
  {
    rows := [];
    for j := 0 to |layer.fields|
      invariant |rows| == j
      invariant forall m :: 0 <= m < j ==> rows[m] == FieldRowOf(layer.name, layer.fields[m])
    {
      rows := rows + [FieldRowOf(layer.name, layer.fields[j])];
    }
  }

  /** The layout loop; the first layout of unknown type aborts it. */
  method CollectLayouts(layouts: seq<Layout>) returns (r: Result<seq<LayoutRow>, PyError>)
    ensures r == MapAll(LayoutRowOf, layouts)
  {
    var layoutRows: seq<LayoutRow> := [];
    for i := 0 to |layouts|
      invariant |layoutRows| == i
      invariant forall k :: 0 <= k < i ==> LayoutRowOf(layouts[k]) == Ok(layoutRows[k])
    {
      var row :- LayoutRowOf(layouts[i]);
      layoutRows := layoutRows + [row];
    }
    var all := MapAll(LayoutRowOf, layouts);
    assert forall k :: 0 <= k < |layouts| ==> LayoutRowOf(layouts[k]).Ok?;
    assert all.value == layoutRows;
    r := Ok(layoutRows);
  }
}
