/**
 * What the metrics readers share: the error values, a failure-compatible
 * result type, and the file system seen as a map from path to content.
 */
module Procfs {

  /**
   * Why a read failed. `CannotOpen` is the error string of `File::open`;
   * `NoCpuLine` and `CountMismatch` are the library's own error strings;
   * `Panic` stands for an `unwrap` on a failed parse or an index past the
   * end of a vector, which abort the call in the library.
   */
  datatype Error = CannotOpen(path: string) | NoCpuLine | CountMismatch | Panic

  datatype Result<T> = Ok(value: T) | Err(error: Error) {
    predicate IsFailure() { Err? }
    function PropagateFailure<U>(): Result<U> requires Err? { Err(error) }
    function Extract(): T requires Ok? { value }
  }

  /** A successful result with `prefix` put in front of its value; a failure unchanged. */
  function PrependAll<T>(prefix: seq<T>, r: Result<seq<T>>): Result<seq<T>> {
    if r.Ok? then Ok(prefix + r.value) else r
  }

  /** Putting two prefixes in front one after the other is putting their concatenation in front. */
  lemma PrependAllTwice<T>(a: seq<T>, b: seq<T>, r: Result<seq<T>>)
    ensures PrependAll(a, PrependAll(b, r)) == PrependAll(a + b, r)
  {
    if r.Ok? {
      assert a + (b + r.value) == (a + b) + r.value;
    }
  }

  /** An empty prefix changes nothing. */
  lemma PrependNothing<T>(r: Result<seq<T>>)
    ensures PrependAll([], r) == r
  {
    if r.Ok? {
      assert [] + r.value == r.value;
    }
  }

  /** The readable files at the time of a call: a path absent from the map cannot be opened. */
  type FileSystem = map<string, string>

  /** `File::open` followed by `read_to_string`. */
  function ReadFile(fs: FileSystem, path: string): Result<string> {
    if path in fs then Ok(fs[path]) else Err(CannotOpen(path))
  }
}
