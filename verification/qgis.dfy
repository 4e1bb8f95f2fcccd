/** The parts of the QGIS object graph that the report reads, taken as plain
    values. Every accessor the plugin calls (`name()`, `crs().authid()`,
    `source()`, `featureCount()`, formatted dates, ...) appears here as the
    value it returned. */
module Qgis {
  import opened Results

  /** One attribute field of a vector layer (`QgsField`). `typeCode` is the
      integer `type()` returns. */
  datatype Field = Field(
    name: string,
    displayName: string,
    alias: string,
    comment: string,
    typeName: string,
    typeCode: int,
    length: int,
    precision: int)

  /** A map layer of the project. `VectorLayer` carries what its data provider
      reports (`storageType()`, `encoding()`) and the display string of its
      geometry type; the other kinds carry their `providerType()`.
      `OtherLayer` stands for every layer class that is neither a vector nor a
      raster layer (mesh, vector tile, point cloud, plugin layers). */
  datatype Layer =
    | VectorLayer(
        name: string,
        crs: string,
        source: string,
        storageType: string,
        encoding: string,
        geometry: string,
        featureCount: int,
        fields: seq<Field>)
    | RasterLayer(name: string, crs: string, source: string, providerType: string)
    | OtherLayer(name: string, crs: string, source: string, providerType: string)

  /** A layout of the layout manager. `layoutType` is the integer
      `layoutType()` returns (0 for a print layout, 1 for a report);
      `coverageLayer` is the name of the atlas coverage layer, if one is set. */
  datatype Layout = Layout(name: string, layoutType: int, coverageLayer: Option<string>)

  /** A project: its properties (dates already formatted as `yyyy-MM-dd`),
      its map layers in `mapLayers().values()` order and its layouts in
      layout-manager order. */
  datatype Project = Project(
    title: string,
    fileName: string,
    homePath: string,
    crs: string,
    creationDate: string,
    lastSaveDate: string,
    layers: seq<Layer>,
    layouts: seq<Layout>)
}
