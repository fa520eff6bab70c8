/** The records the services pass around: JSON-like metadata and LangChain's `Document`, whose
    `metadata` dictionary the reranker writes into in place. */
module Documents {
  import opened Wrappers

  /** A metadata value: the JSON-like scalars the services store. */
  datatype MetaValue = Str(s: string) | Int(i: int) | Real(x: real) | Bool(b: bool) | Null

  type Metadata = map<string, MetaValue>

  /** A retrieved document. `metadata` is None when the document has no metadata (or it is None). */
  class Document {
    var pageContent: string
    var metadata: Option<Metadata>

    constructor (pageContent: string, metadata: Option<Metadata>)
      ensures this.pageContent == pageContent && this.metadata == metadata
    {
      this.pageContent := pageContent;
      this.metadata := metadata;
    }
  }
}
