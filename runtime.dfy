/** The few Python run-time notions the services depend on.

    A repository hands back a Python list whose elements the service reads
    attribute by attribute. Python does not enforce the `List[User]`
    annotation of the repository port, and attribute reads are duck-typed:
    an element either has the attributes read from it or lacks one of them.
    Reading a missing attribute raises `AttributeError`. A call into the
    repository either returns such a list or raises an exception, and the
    service only sees the exception's text (`str(e)`).
 */
module Runtime {

  /** A value, or the text of the exception raised while computing it. */
  datatype Result<T> = Ok(value: T) | Err(error: string)

  /** An element of a list being read attribute by attribute. */
  datatype PyObject<T> =
    /** An object that has every attribute the reader asks for, with the
        values of `value`. */
    | Instance(value: T)
    /** An object of type `typeName` that lacks the first attribute the
        reader asks for. */
    | Foreign(typeName: string)

  /** The outcome of one call into a repository method. */
  datatype Call<T> =
    | Returned(objs: seq<PyObject<T>>)
    | Raised(error: string)

  /** `str(e)` for the `AttributeError` raised by reading attribute `attr`
      of an object of type `typeName` that does not have it. */
  function AttributeError(typeName: string, attr: string): string
  {
    "'" + typeName + "' object has no attribute '" + attr + "'"
  }

  /** `str(e)` for the `TypeError` raised by iterating over a value of type
      `typeName` that cannot be iterated. */
  function TypeErrorNotIterable(typeName: string): string
  {
    "'" + typeName + "' object is not iterable"
  }

  /** The index of the first element that is not a record instance, or
      `|objs|` when every element is one. A loop that reads the elements in
      order raises exactly at this index. */
  function FirstForeign<T>(objs: seq<PyObject<T>>): (k: nat)
    ensures k <= |objs|
    ensures forall j :: 0 <= j < k ==> objs[j].Instance?
    ensures k < |objs| ==> objs[k].Foreign?
  {
    if objs == [] || objs[0].Foreign? then 0 else 1 + FirstForeign(objs[1..])
  }

  /** Every element of `objs` is an instance of the record class. */
  predicate AllInstances<T>(objs: seq<PyObject<T>>)
  {
    forall k :: 0 <= k < |objs| ==> objs[k].Instance?
  }
}
