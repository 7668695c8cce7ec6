/** Shared vocabulary of the model: optional values, the exceptions the Python
    code raises or lets through, filesystem paths and Python's prefix slice. */
module Base {

  datatype Option<+T> = None | Some(value: T)

  /** An exception. `ValueError` is raised by this repository's own code with
      the given message; `Raised` is any exception thrown inside a collaborator
      (a PDF loader, the text splitter, Chroma, an LLM client, `copy2`), named
      by where it came from. */
  datatype Error =
    | ValueError(message: string)
    | Raised(origin: string)

  /** The value a Python call returns, or the exception it raises. */
  datatype Result<+T> = Ok(value: T) | Err(error: Error)

  /** A Python call that returns nothing useful, or raises. */
  datatype Outcome = Pass | Fail(error: Error)

  function Min(a: int, b: int): int { if a <= b then a else b }

  function Max(a: int, b: int): int { if a <= b then b else a }

  /** A `pathlib.Path`, as its sequence of components. */
  type Path = seq<string>

  /** `p / name` */
  function Child(p: Path, name: string): (r: Path)
    ensures |r| == |p| + 1 && r[..|p|] == p && Name(r) == name
  {
    p + [name]
  }

  /** `p.name`: the last component, "" for an empty path. */
  function Name(p: Path): string
  {
    if p == [] then "" else p[|p| - 1]
  }

  /** Python's prefix slice `xs[:n]`, for every integer `n`: a negative `n`
      counts from the end. */
  function Take<T>(xs: seq<T>, n: int): (r: seq<T>)
    ensures n >= 0 ==> |r| == Min(n, |xs|)
    ensures n < 0 ==> |r| == Max(0, |xs| + n)
    ensures r == xs[..|r|]
  {
    if n >= 0 then xs[..Min(n, |xs|)] else xs[..Max(0, |xs| + n)]
  }
}
