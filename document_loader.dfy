/** Ingestion: turning CSV rows into documents, tagging them by source,
    gathering every source in a fixed order and handing the result to the
    text splitter. The file system, pandas' CSV reader and langchain's
    splitter are parameters of the model. */
module DocumentLoader {
  import opened Wrappers
  import opened Text
  import opened Documents
  import Config

  /** One CSV row as pandas yields it: (column, rendered value) pairs in
      column order. */
  type Row = seq<(string, string)>

  /** The file system as the loader sees it: whether a path exists, and what
      `pd.read_csv` returns for it (`None` when it raises). */
  datatype Files = Files(present: string -> bool, readCsv: string -> Option<seq<Row>>)

  /** `split_documents` of a splitter configured with (chunk size, chunk
      overlap); `None` when it raises. */
  type Splitter = (int, int, seq<Document>) -> Option<seq<Document>>

  const MaintenanceLogsPath := "synthetic_maintenance_logs.csv"
  const FleetInfoPath := "synthetic_fleet_info.csv"
  const ObdCodesPath := "synthetic_obd_codes.csv"
  const SampleManualSource := "sample_maintenance_manual.txt"

  /** The splitter settings of a `DocumentProcessor`. */
  datatype Processor = Processor(chunkSize: int, chunkOverlap: int)

  /** `DocumentProcessor(chunk_size, chunk_overlap)`: a falsy argument falls
      back to the configured default. */
  function NewProcessor(chunkSize: Option<int>, chunkOverlap: Option<int>): (p: Processor)
    ensures (chunkSize.None? || chunkSize.value == 0) ==> p.chunkSize == Config.ChunkSize
    ensures (chunkOverlap.None? || chunkOverlap.value == 0) ==> p.chunkOverlap == Config.ChunkOverlap
    ensures chunkSize.Some? && chunkSize.value != 0 ==> p.chunkSize == chunkSize.value
    ensures chunkOverlap.Some? && chunkOverlap.value != 0 ==> p.chunkOverlap == chunkOverlap.value
  {
    Processor(Config.IntOr(chunkSize, Config.ChunkSize), Config.IntOr(chunkOverlap, Config.ChunkOverlap))
  }

  /** One `f"{col}: {val}"` line. */
  function Field(column: string, value: string): string
  {
    column + ": " + value
  }

  /** The lines of a row document, one per column, in column order. */
  function Fields(row: Row): (lines: seq<string>)
    ensures |lines| == |row|
  {
    seq(|row|, i requires 0 <= i < |row| => Field(row[i].0, row[i].1))
  }

  /** The page content of a row document: its field lines joined by newlines. */
  function RowContent(row: Row): (content: string)
    ensures row == [] ==> content == ""
    ensures |row| == 1 ==> content == row[0].0 + ": " + row[0].1
  {
    Join("\n", Fields(row))
  }

  /** A row whose columns and values hold no newline can be read back from its
      content: splitting on newlines gives one `col: val` line per column, in
      order. */
  lemma RowContentLines(row: Row)
    requires row != []
    requires forall i :: 0 <= i < |row| ==> '\n' !in row[i].0 && '\n' !in row[i].1
    ensures Split(RowContent(row), '\n') == Fields(row)
    ensures forall i :: 0 <= i < |row| ==> Split(RowContent(row), '\n')[i] == row[i].0 + ": " + row[i].1
  {
    var lines := Fields(row);
    forall i | 0 <= i < |lines| ensures '\n' !in lines[i] {
      assert lines[i] == row[i].0 + ": " + row[i].1;
    }
    SplitJoin(lines, '\n');
  }

  /** The metadata of the document made from row `index` of `filePath`. */
  function CsvMetadata(filePath: string, index: int): (metadata: Metadata)
    ensures metadata.Keys == {"source", "row_index", "type"}
    ensures metadata["source"] == Str(filePath) && metadata["row_index"] == Int(index)
    ensures metadata["type"] == Str("csv_data")
  {
    map["source" := Str(filePath), "row_index" := Int(index), "type" := Str("csv_data")]
  }

  /** `load_csv_data`: one document per row, in row order; a file pandas
      cannot read yields no documents. Row indices are positions (pandas'
      default index). */
  method LoadCsvData(files: Files, filePath: string) returns (documents: seq<Document>)
    ensures files.readCsv(filePath).None? ==> documents == []
    ensures files.readCsv(filePath).Some? ==> |documents| == |files.readCsv(filePath).value|
    ensures files.readCsv(filePath).Some? ==>
      forall i :: 0 <= i < |documents| ==>
        documents[i].content == RowContent(files.readCsv(filePath).value[i]) &&
        documents[i].metadata == CsvMetadata(filePath, i)
  {
    var table := files.readCsv(filePath);
    if table.None? {
      return [];
    }
    var rows := table.value;
    documents := [];
    var idx := 0;
    while idx < |rows|
      invariant 0 <= idx <= |rows|
      invariant |documents| == idx
      invariant forall i :: 0 <= i < idx ==>
        documents[i] == Document(RowContent(rows[i]), CsvMetadata(filePath, i))
    {
      var content := RowContent(rows[idx]);
      var doc := Document(content, CsvMetadata(filePath, idx));
      documents := documents + [doc];
      idx := idx + 1;
    }
  }

  /** The documents of one CSV source tagged with its `document_type`:
      nothing when the file is missing or unreadable. */
  function TaggedCsv(files: Files, filePath: string, documentType: string): (documents: seq<Document>)
    ensures !files.present(filePath) || files.readCsv(filePath).None? ==> documents == []
    ensures files.present(filePath) && files.readCsv(filePath).Some? ==>
      var rows := files.readCsv(filePath).value;
      |documents| == |rows| &&
      forall i :: 0 <= i < |rows| ==>
        documents[i].content == RowContent(rows[i]) &&
        documents[i].metadata.Keys == {"source", "row_index", "type", "document_type"} &&
        documents[i].metadata == CsvMetadata(filePath, i)["document_type" := Str(documentType)]
  {
    if !files.present(filePath) then []
    else match files.readCsv(filePath)
      case None => []
      case Some(rows) =>
        seq(|rows|, i requires 0 <= i < |rows| =>
          Document(RowContent(rows[i]), CsvMetadata(filePath, i)["document_type" := Str(documentType)]))
  }

  /** `doc.metadata.update({"document_type": ...})` for every document: the
      count, order, contents and other metadata entries are kept. */
  method Tag(documents: seq<Document>, documentType: string) returns (tagged: seq<Document>)
    ensures |tagged| == |documents|
    ensures forall i :: 0 <= i < |documents| ==>
      tagged[i].content == documents[i].content &&
      tagged[i].metadata == documents[i].metadata["document_type" := Str(documentType)]
  {
    tagged := documents;
    for i := 0 to |documents|
      invariant |tagged| == |documents|
      invariant forall j :: 0 <= j < i ==>
        tagged[j] == documents[j].(metadata := documents[j].metadata["document_type" := Str(documentType)])
      invariant forall j :: i <= j < |documents| ==> tagged[j] == documents[j]
    {
      var doc := tagged[i];
      tagged := tagged[i := doc.(metadata := doc.metadata["document_type" := Str(documentType)])];
    }
  }

  /** The shared body of the three per-source loaders. */
  method LoadTagged(files: Files, filePath: string, documentType: string) returns (documents: seq<Document>)
    ensures documents == TaggedCsv(files, filePath, documentType)
  {
    if !files.present(filePath) {
      return [];
    }
    var rows := LoadCsvData(files, filePath);
    documents := Tag(rows, documentType);
  }

  /** `load_maintenance_logs`. */
  method LoadMaintenanceLogs(files: Files) returns (documents: seq<Document>)
    ensures documents == TaggedCsv(files, MaintenanceLogsPath, "maintenance_log")
  {
    documents := LoadTagged(files, MaintenanceLogsPath, "maintenance_log");
  }

  /** `load_fleet_info`. */
  method LoadFleetInfo(files: Files) returns (documents: seq<Document>)
    ensures documents == TaggedCsv(files, FleetInfoPath, "fleet_info")
  {
    documents := LoadTagged(files, FleetInfoPath, "fleet_info");
  }

  /** `load_obd_codes`. */
  method LoadObdCodes(files: Files) returns (documents: seq<Document>)
    ensures documents == TaggedCsv(files, ObdCodesPath, "obd_codes")
  {
    documents := LoadTagged(files, ObdCodesPath, "obd_codes");
  }

  /** `chunk_documents`: the splitter's output, or the input unchanged when
      the splitter raises. */
  function ChunkDocuments(processor: Processor, split: Splitter, documents: seq<Document>): (chunks: seq<Document>)
    ensures split(processor.chunkSize, processor.chunkOverlap, documents).None? ==> chunks == documents
    ensures split(processor.chunkSize, processor.chunkOverlap, documents).Some? ==>
      chunks == split(processor.chunkSize, processor.chunkOverlap, documents).value
  {
    match split(processor.chunkSize, processor.chunkOverlap, documents)
    case None => documents
    case Some(chunked) => chunked
  }

  const SampleManualContent: string := @"
# Commercial Vehicle Engine Maintenance Manual

## Chapter 1: Engine Oil System

### Oil Change Procedures
Regular oil changes are critical for engine longevity. For commercial diesel engines:
- Change interval: Every 15,000-25,000 miles or 6 months
- Oil capacity: 10-15 gallons depending on engine size
- Recommended oil: 15W-40 heavy-duty diesel engine oil

### Oil Analysis
Monitor oil condition through regular analysis:
- Metal content indicates wear patterns
- Viscosity changes suggest contamination
- Acid number indicates oxidation levels

## Chapter 2: Cooling System Maintenance

### Coolant System Inspection
The cooling system prevents engine overheating:
- Check coolant level weekly
- Inspect hoses for cracks or leaks
- Test thermostat operation at 180-195°F
- Flush system every 100,000 miles

### Common Cooling Issues
- Overheating: Check radiator, water pump, thermostat
- Coolant loss: Inspect for external leaks
- Poor heating: May indicate low coolant or air pockets

## Chapter 3: Diagnostic Trouble Codes

### OBD-II System
The On-Board Diagnostic system monitors engine performance:
- P0171: System Too Lean (Bank 1) - Check for vacuum leaks, fuel pressure
- P0300: Random Misfire - Inspect spark plugs, fuel injectors, compression
- P0420: Catalyst Efficiency Below Threshold - Replace catalytic converter
- P2002: DPF Efficiency Below Threshold - Perform DPF regeneration

### DOT Compliance Requirements
Annual inspection items required by DOT:
- Brake system operation and adjustment
- Steering and suspension components
- Lighting and electrical systems
- Engine mounting and condition
- Exhaust system integrity

## Troubleshooting Guide

### Engine Won't Start
1. Check battery voltage (12.6V minimum)
2. Verify fuel supply and quality
3. Check air intake for restrictions
4. Test glow plugs (diesel engines)
5. Examine starter motor operation

### Engine Overheating
1. Check coolant level immediately
2. Inspect radiator for blockage
3. Test thermostat operation
4. Check water pump function
5. Verify fan operation

### Low Oil Pressure
1. Check oil level immediately
2. Verify oil viscosity is correct
3. Inspect oil pump operation
4. Check for internal engine wear
5. Replace oil pressure sensor

### Poor Fuel Economy
1. Check air filter restriction
2. Verify fuel quality
3. Test fuel injectors
4. Check tire pressure
5. Evaluate driving habits
"

  /** `create_sample_manual`: the built-in manual document. */
  function SampleManual(): (doc: Document)
    ensures doc.content == SampleManualContent
    ensures doc.metadata.Keys == {"source", "document_type", "type"}
    ensures doc.metadata["source"] == Str(SampleManualSource)
    ensures doc.metadata["document_type"] == Str("maintenance_manual")
    ensures doc.metadata["type"] == Str("manual")
  {
    Document(SampleManualContent, map[
      "source" := Str(SampleManualSource),
      "document_type" := Str("maintenance_manual"),
      "type" := Str("manual")])
  }

  /** What `load_all_documents` hands to the splitter: maintenance logs, then
      fleet information, then OBD codes, then the sample manual. */
  function UnchunkedDocuments(files: Files): (all: seq<Document>)
  {
    TaggedCsv(files, MaintenanceLogsPath, "maintenance_log")
      + TaggedCsv(files, FleetInfoPath, "fleet_info")
      + TaggedCsv(files, ObdCodesPath, "obd_codes")
      + [SampleManual()]
  }

  /** The gathered list is never empty and ends with the sample manual, so
      the splitter always runs; the CSV sources keep their order. */
  lemma UnchunkedShape(files: Files)
    ensures var all := UnchunkedDocuments(files);
      var m := TaggedCsv(files, MaintenanceLogsPath, "maintenance_log");
      var f := TaggedCsv(files, FleetInfoPath, "fleet_info");
      var o := TaggedCsv(files, ObdCodesPath, "obd_codes");
      && |all| == |m| + |f| + |o| + 1
      && all[..|m|] == m
      && all[|m|..|m| + |f|] == f
      && all[|m| + |f|..|m| + |f| + |o|] == o
      && all[|all| - 1] == SampleManual()
      && SourceName(all[|all| - 1]) == SampleManualSource
  {
    var m := TaggedCsv(files, MaintenanceLogsPath, "maintenance_log");
    var f := TaggedCsv(files, FleetInfoPath, "fleet_info");
    var o := TaggedCsv(files, ObdCodesPath, "obd_codes");
    var all := UnchunkedDocuments(files);
    assert all == m + f + o + [SampleManual()];
    assert all[..|m|] == m;
    assert all[|m|..|m| + |f|] == f;
    assert all[|m| + |f|..|m| + |f| + |o|] == o;
  }

  /** `load_all_documents`: the sources in their fixed order, then chunking. */
  method LoadAllDocuments(processor: Processor, split: Splitter, files: Files) returns (all: seq<Document>)
    ensures all == ChunkDocuments(processor, split, UnchunkedDocuments(files))
  {
    all := [];
    var maintenanceDocs := LoadMaintenanceLogs(files);
    var fleetDocs := LoadFleetInfo(files);
    var obdDocs := LoadObdCodes(files);
    all := all + maintenanceDocs;
    all := all + fleetDocs;
    all := all + obdDocs;
    var sampleManual := SampleManual();
    all := all + [sampleManual];
    assert all == maintenanceDocs + fleetDocs + obdDocs + [sampleManual];
    if all != [] {
      all := ChunkDocuments(processor, split, all);
    }
  }
}
