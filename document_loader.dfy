/** `DocumentLoader`: loads a PDF with the Unstructured loader and, only if
    that raises, once with the PyPDF loader, remembering which one worked. */
module DocumentLoading {
  import opened Base
  import opened Documents

  /** A LangChain PDF loader's `load()` on a path: the pages, or the
      exception it raises. */
  type PdfLoader = Path -> Result<seq<Document>>

  const PrimaryName: string := "UnstructuredPDFLoader"

  const FallbackName: string := "PyPDFLoader"

  /** What `load_pdf` returns: the primary loader's pages, else the
      fallback's pages or the fallback's exception. */
  function Load(primary: PdfLoader, fallback: PdfLoader, path: Path): Result<seq<Document>>
  {
    if primary(path).Ok? then primary(path) else fallback(path)
  }

  /** The loader whose pages `load_pdf` returns, if any. */
  function LoaderUsed(primary: PdfLoader, fallback: PdfLoader, path: Path): Option<string>
  {
    if primary(path).Ok? then Some(PrimaryName)
    else if fallback(path).Ok? then Some(FallbackName)
    else None
  }

  /** The loaders tried, in order: the fallback only after the primary
      raised. */
  function Attempts(primary: PdfLoader, path: Path): seq<string>
  {
    if primary(path).Ok? then [PrimaryName] else [PrimaryName, FallbackName]
  }

  /** A load succeeds exactly when some loader is recorded, the pages come
      from the loader recorded, and a failure is the fallback's exception
      after both loaders were tried once. */
  lemma LoadSpec(primary: PdfLoader, fallback: PdfLoader, path: Path)
    ensures var r := Load(primary, fallback, path);
      var used := LoaderUsed(primary, fallback, path);
      && (r.Ok? <==> used.Some?)
      && (used == Some(PrimaryName) ==> r == primary(path) && Attempts(primary, path) == [PrimaryName])
      && (used == Some(FallbackName) ==> r == fallback(path) && Attempts(primary, path) == [PrimaryName, FallbackName])
      && (r.Err? ==> r == fallback(path) && Attempts(primary, path) == [PrimaryName, FallbackName])
  {
  }

  class DocumentLoader {
    const primary: PdfLoader
    const fallback: PdfLoader
    /** `loader_name`: the loader of the last successful load. */
    var loaderName: Option<string>
    /** Every loader tried so far, in order. */
    ghost var attempts: seq<string>
    /** How many loads have succeeded. */
    ghost var successes: nat

    /** `loader_name` is `None` exactly until a load succeeds, and then names
        one of the two loaders. */
    ghost predicate Valid()
      reads this
    {
      && (loaderName.None? <==> successes == 0)
      && (loaderName.Some? ==> loaderName.value == PrimaryName || loaderName.value == FallbackName)
    }

    constructor(primary: PdfLoader, fallback: PdfLoader)
      ensures Valid()
      ensures this.primary == primary && this.fallback == fallback
      ensures loaderName == None && attempts == [] && successes == 0
    {
      this.primary := primary;
      this.fallback := fallback;
      loaderName := None;
      attempts := [];
      successes := 0;
    }

    /** `load_pdf` */
    method LoadPdf(path: Path) returns (r: Result<seq<Document>>)
      requires Valid()
      modifies this
      ensures Valid()
      ensures r == Load(primary, fallback, path)
      ensures attempts == old(attempts) + Attempts(primary, path)
      ensures r.Ok? ==> loaderName == LoaderUsed(primary, fallback, path) && successes == old(successes) + 1
      ensures r.Err? ==> loaderName == old(loaderName) && successes == old(successes)
    {
      attempts := attempts + [PrimaryName];
      var documents := primary(path);
      if documents.Ok? {
        loaderName := Some(PrimaryName);
        successes := successes + 1;
        return documents;
      }
      attempts := attempts + [FallbackName];
      documents := fallback(path);
      if documents.Err? {
        return documents;
      }
      loaderName := Some(FallbackName);
      successes := successes + 1;
      r := documents;
    }
  }
}
