/** Properties that relate several operations of the report builder. */
module ReportLemmas {
  import opened Results
  import opened PyStrings
  import opened Seqs
  import opened Qgis
  import opened ProjectReport

  /** The characterisation in `ProjectName`'s contract determines the name:
      any dot-free prefix of the last path segment that ends at a dot or at the
      end of the file name is the project name. */
  lemma ProjectNameUnique(fileName: string, k: int, p: string)
    requires AfterLast(fileName, '/', k)
    requires '.' !in p && p <= fileName[k..]
    requires k + |p| == |fileName| || fileName[k + |p|] == '.'
    ensures p == ProjectName(fileName)
  {
  }

  /** Only vector layers contribute field rows, one per field. */
  lemma {:induction false} FieldRowCount(layers: seq<Layer>)
    ensures |FieldRows(layers)| == TotalFields(layers)
    decreases |layers|
  {
    if |layers| > 0 {
      FieldRowCount(layers[1..]);
      assert |FieldRowsOf(layers[0])| == FieldCount(layers[0]);
    }
  }

  /** Field rows are in layer order, then field order: field `j` of layer `i`
      is at the number of fields of the layers before `i`, plus `j`, and its
      row starts with the layer's name. */
  lemma FieldRowAt(layers: seq<Layer>, i: int, j: int)
    requires 0 <= i < |layers| && layers[i].VectorLayer? && 0 <= j < |layers[i].fields|
    ensures TotalFields(layers[..i]) + j < |FieldRows(layers)|
    ensures FieldRows(layers)[TotalFields(layers[..i]) + j] == FieldRowOf(layers[i].name, layers[i].fields[j])
  {
    FieldRowCount(layers[..i]);
    FlatMapIndex(FieldRowsOf, layers, i, j);
  }

  /** A constructed report has one row per layer, in layer order, whose
      kind-dependent columns follow the layer's kind. */
  lemma BuildLayerRows(p: Project, i: int)
    requires Build(p).Ok? && 0 <= i < |p.layers|
    ensures var row := Build(p).value.layers[i];
            var l := p.layers[i];
            && row.name == l.name
            && row.crs == l.crs
            && row.pathUrl == GetUrl(l).value
            && (l.VectorLayer? ==>
                  row.storage == l.storageType && row.encoding == l.encoding
                  && row.geometryType == l.geometry && row.featuresCount == Number(l.featureCount))
            && (!l.VectorLayer? ==>
                  row.storage == l.providerType && row.encoding == "" && row.geometryType == ""
                  && row.featuresCount == Text(""))
  {
  }

  /** A constructed report has exactly as many field rows as its vector
      layers have fields. */
  lemma BuildFieldRows(p: Project)
    requires Build(p).Ok?
    ensures |Build(p).value.fields| == TotalFields(p.layers)
  {
    FieldRowCount(p.layers);
  }

  /** A constructed report has one row per layout, in order; `atlas` holds
      exactly for print layouts with a coverage layer, and only then is a
      coverage-layer name written. */
  lemma BuildLayoutRows(p: Project, k: int)
    requires Build(p).Ok? && 0 <= k < |p.layouts|
    ensures var row := Build(p).value.layouts[k];
            var layout := p.layouts[k];
            && row.layoutName == layout.name
            && (row.atlas <==> layout.layoutType == 0 && layout.coverageLayer.Some?)
            && (row.atlasCoverageLayerName != "" ==> row.atlas)
  {
  }

  /** The characterisation in `GetUrl`'s contract determines the URL: for a
      layer without a full source, the text after the first `url=` up to the
      next one is the `path_url`. */
  lemma GetUrlDetermined(l: Layer, i: int, p: string)
    requires !FullSource(l)
    requires FirstOccurrence(l.source, UrlKey, i)
    requires UpToFirst(l.source[i + |UrlKey|..], UrlKey, p)
    ensures GetUrl(l) == Ok(p)
  {
    var r := GetUrl(l);
    assert r.Ok?;
    UpToFirstUnique(l.source[i + |UrlKey|..], UrlKey, p, r.value);
  }

  /** A project saved as `/home/ana/maps/city.v2.qgz` is named `city`. */
  lemma ProjectNameOfPath()
    ensures ProjectName("/home/ana/maps/city.v2.qgz") == "city"
  {
    var f := "/home/ana/maps/city.v2.qgz";
    assert f[15..] == "city.v2.qgz";
    assert f[14] == '/';
    ProjectNameUnique(f, 15, "city");
  }
}
