# QGIS project report — Dafny model

This project models the data-collection core of the QGIS "Project Report"
plugin, the `QProjectReport` class. From an open QGIS project it builds:

- the project name, taken from the project's file name;
- one project row with seven columns;
- one row per map layer with seven columns. The `path_url` column is computed
  by `getURL`;
- one row per field of each vector layer, with nine columns;
- one row per print layout or report, with four columns.

It then writes each of the four tables to a CSV file as a header line followed
by the data rows.

The QGIS objects are plain values here (module `Qgis`). A layer is a vector
layer, a raster layer, or another kind of layer. A layout is a name, a type
code and an optional atlas coverage layer. Every value the plugin reads
through a QGIS accessor appears as a field holding what that accessor
returned. Python's `str.split` is modelled in `PyStrings`, with `join` as its
inverse. The two exceptions the constructor can raise are modelled in
`ProjectReport`: an `IndexError` from `getURL` and a `KeyError` from the
layout-type dictionary. The constructor itself appears twice. `Build` is a
pure function over sequences. `Construct` follows the source's loops. They are
proved to compute the same result.

Files: `results.dfy` (Option and Result, plus the "loop whose body may raise"
combinator `MapAll`), `seqs.dfy` (concatenating the outputs of a nested loop),
`py_strings.dfy`, `qgis.dfy`, `project_report.dfy`, `report_csv.dfy` and
`report_lemmas.dfy`.

## Model

| member | source | states |
|---|---|---|
| PyStrings.Split | project_report/QProjectReport.py:40 | `str.split` with a non-empty separator always returns at least one piece. The lemmas below state what the pieces are. |
| PyStrings.SplitFirstPiece | project_report/QProjectReport.py:40 | The first piece of `str.split` (the `[0]`) is the text up to the first separator, or the whole text when the separator does not occur. |
| PyStrings.SplitPiecesFree | project_report/QProjectReport.py:40 | No piece of a split contains the separator. |
| PyStrings.SplitJoin | project_report/QProjectReport.py:19 | Joining the pieces of a split with the separator gives back the original text, so nothing is lost or reordered. |
| PyStrings.SplitLastPiece | project_report/QProjectReport.py:40 | The last piece of `split('/')` (the `[-1]`) is exactly the text after the last `/`. |
| ProjectReport.ProjectName | project_report/QProjectReport.py:40 | The project name contains no `/` and no `.`. The file name always has a last `/`-separated segment, and the name starts the file name's last `/`-separated segment and ends at that segment's first `.` or at the end of the name. |
| ReportLemmas.ProjectNameUnique | project_report/QProjectReport.py:40 | The property above determines the name: any dot-free prefix of the last segment that ends at a `.` or at the end is the project name. |
| ReportLemmas.ProjectNameOfPath | project_report/QProjectReport.py:40 | `/home/ana/maps/city.v2.qgz` gives the project name `city`. |
| ProjectReport.GetUrl | project_report/QProjectReport.py:7-20 | Vector layers and `gdal` rasters give their whole source. Any other layer succeeds exactly when `url=` occurs in its source. It then gives the text after the first `url=`, up to the next `url=` or the end. Otherwise it fails with `IndexError`. |
| ProjectReport.GetUrlSegment | project_report/QProjectReport.py:19 | `split('url=')` has a second piece exactly when `url=` occurs. That piece is the text after the first `url=`, up to the next `url=` or the end. |
| ReportLemmas.GetUrlDetermined | project_report/QProjectReport.py:18-19 | The property in `GetUrl`'s contract determines the URL. For a layer without a full source, the text after the first `url=` up to the next one is its `path_url`. |
| PyStrings.UpToFirstUnique | project_report/QProjectReport.py:19 | Cutting a text at the first occurrence of a separator gives one result only. |
| ProjectReport.ProjectRowOf | project_report/QProjectReport.py:52-60 | The project row carries the project's title, file name, home path, CRS, creation date and last-save date. Its `layers_count` is the number of layers. |
| ProjectReport.LayerRowOf | project_report/QProjectReport.py:82-97 | A layer row exists exactly when `getURL` succeeds. It carries the layer's name, CRS and URL. For a vector layer, storage is the provider's storage type, and encoding, geometry and feature count come from the layer. For any other layer, storage is the provider type and the other three columns are `''`. |
| ProjectReport.FieldRowOf | project_report/QProjectReport.py:100-112 | A field row starts with its layer's name. Its `field_name`, `display_name`, `alias`, `type_name`, `type` and `length` are the field's own. `comment` and `precision` are one-element tuples because of the trailing commas on lines 104 and 109. |
| ProjectReport.LayoutTypeName | project_report/QProjectReport.py:120-125 | Type 0 maps to `PrintLayout` and type 1 to `Report`. Any other type raises `KeyError` with that type. |
| ProjectReport.LayoutRowOf | project_report/QProjectReport.py:122-130 | A layout row exists exactly for types 0 and 1. `atlas` holds exactly for a print layout with a coverage layer. Only an atlas gets the coverage layer's name; every other layout gets `''`. |
| ProjectReport.Build | project_report/QProjectReport.py:37-130 | The constructor succeeds exactly when every layer's URL can be computed and every layout type is known. If some layer fails, the error is `IndexError`. Otherwise the first unknown layout type is the `KeyError`. On success there is one layer row per layer and one layout row per layout, and `layers_count` equals the number of layer rows. |
| ProjectReport.Construct | project_report/QProjectReport.py:27-130 | The constructor's loops, in the source's order, give exactly the result of `Build`, including which error is raised first. |
| ProjectReport.CollectLayers | project_report/QProjectReport.py:82-112 | The layer loop yields the layer rows in layer order and the field rows of the layers processed. It stops at the first layer whose URL fails, with that error. |
| ProjectReport.CollectFields | project_report/QProjectReport.py:99-112 | The field loop of a vector layer yields one row per field, in field order. |
| ProjectReport.CollectLayouts | project_report/QProjectReport.py:122-130 | The layout loop yields the layout rows in order, or the `KeyError` of the first unknown layout type. |
| ReportLemmas.FieldRowCount | project_report/QProjectReport.py:99-112 | The number of field rows is the sum of the vector layers' field counts. Other layers contribute none. |
| ReportLemmas.FieldRowAt | project_report/QProjectReport.py:99-112 | Field `j` of layer `i` sits at position (fields of the layers before `i`) + `j`. Field rows are therefore in layer order, then field order. |
| ReportLemmas.BuildLayerRows | project_report/QProjectReport.py:82-97 | In a built report, layer row `i` carries layer `i`'s name, CRS and URL. For a vector layer, storage, encoding, geometry and feature count come from the layer. For any other layer, storage is the provider type and the other three columns are `''`. |
| ReportLemmas.BuildFieldRows | project_report/QProjectReport.py:99-112 | A built report has exactly as many field rows as its vector layers have fields. |
| ReportLemmas.BuildLayoutRows | project_report/QProjectReport.py:122-130 | In a built report, layout row `k` belongs to layout `k`. A non-empty coverage-layer name implies `atlas`. |
| ProjectReport.ProjectRow.Cells | project_report/QProjectReport.py:44-60 | The project row is seven cells wide. The cell at each position is the value the row holds for the header at that position. |
| ProjectReport.LayerRow.Cells | project_report/QProjectReport.py:65-97 | A layer row is seven cells wide. The cell at each position is the value the row holds for the header at that position. |
| ProjectReport.FieldRow.Cells | project_report/QProjectReport.py:77-112 | A field row is nine cells wide. The cell at each position is the value the row holds for the header at that position. |
| ProjectReport.LayoutRow.Cells | project_report/QProjectReport.py:117-130 | A layout row is four cells wide. The cell at each position is the value the row holds for the header at that position. |
| ReportCsv.ProjectCsv | project_report/QProjectReport.py:142-152 | `01_project.csv` holds the seven-column header and the single project row, both seven cells wide. |
| ReportCsv.LayersCsv | project_report/QProjectReport.py:154-164 | `02_layers.csv` holds the header and then the layer rows in order. Every line is seven cells wide. |
| ReportCsv.FieldsCsv | project_report/QProjectReport.py:166-176 | `03_fields.csv` holds the header and then the field rows in order. Every line is nine cells wide. |
| ReportCsv.LayoutsCsv | project_report/QProjectReport.py:178-188 | `04_layouts.csv` holds the header and then the layout rows in order. Every line is four cells wide. |

## Left out

- `scaffolding` and the file side of the `createCSV*` methods are left out: creating directories, opening files and `print` are I/O. Each file is modelled only as its name plus its lines (header, then rows).
- CSV encoding is left out: the `;` delimiter and `QUOTE_MINIMAL` quoting belong to Python's `csv` library.
- `report_directory` and `csv_directory` are left out. They are built with `os.path.join`, whose result depends on the host's path rules and on whether `folder` is absolute.
- QGIS and Qt accessors are not modelled as behaviour. This covers `crs().authid()`, `featureCount()`, `QgsWkbTypes.geometryDisplayString`, the provider's `storageType()` and `encoding()`, and date formatting with `toString("yyyy-MM-dd")`. Each is an input value of the `Qgis` datatypes.
- `qgsproject.count()` is taken to be the number of map layers, which is what the project reports. It is written as the length of the layer sequence.
- `mapLayers().values()` and `layoutManager().layouts()` are modelled as sequences in iteration order. Their order is whatever the host returns.
- `project_report/__init__.py` (`classFactory`) is left out. It is the plugin entry point and contains no logic.
- Relation, table-join and HTML reports are left out. `QProjectReport.py` does not produce them, so they are not part of this model.
- PyStrings.Split: the function's own contract states only that there is at least one piece. The first piece, the last piece, separator-free pieces and the join round trip are separate lemmas (`SplitFirstPiece`, `SplitLastPiece`, `SplitPiecesFree`, `SplitJoin`). This keeps each proof small.
- Python's `str.split` is modelled only for the non-empty separators the source uses. An empty separator raises `ValueError` in Python and never occurs here.
