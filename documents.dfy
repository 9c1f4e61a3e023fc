/** The document record shared by the loader and the pipeline (langchain's
    `Document`): page content plus a metadata dictionary. */
module Documents {
  import Text

  /** A metadata value: the loaders store strings and one integer (`row_index`). */
  datatype MetaValue = Str(s: string) | Int(n: int)

  type Metadata = map<string, MetaValue>

  datatype Document = Document(content: string, metadata: Metadata)

  /** A search hit: a document and its similarity score. */
  type Scored = (Document, real)

  /** What an f-string writes for a metadata value. */
  function Render(v: MetaValue): (r: string)
    ensures v.Str? ==> r == v.s
    ensures v.Int? && v.n >= 0 ==> Text.DigitsValue(r) == v.n
    ensures v.Int? && v.n < 0 ==> |r| >= 1 && r[0] == '-' && Text.DigitsValue(r[1..]) == -v.n
  {
    match v
    case Str(s) => s
    case Int(n) => Text.IntToStringValue(n); Text.IntToString(n)
  }

  /** `doc.metadata.get('source', 'Unknown')`, as an f-string writes it. */
  function SourceName(doc: Document): (r: string)
    ensures "source" !in doc.metadata ==> r == "Unknown"
    ensures "source" in doc.metadata && doc.metadata["source"].Str? ==> r == doc.metadata["source"].s
  {
    if "source" in doc.metadata then Render(doc.metadata["source"]) else "Unknown"
  }
}
