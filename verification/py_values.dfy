/** The few Python values that cross the process boundary in the leader/follower
    protocol, and the Option type used for the model's partial results. */
module PyValues {

  /** Optional values. */
  datatype Option<+T> = None | Some(value: T)

  /** A Python object as pickled by the collective broadcast, covering every
      value a JSON request body can hold: `None`, a `bool`, an `int`, a
      `float`, a `str`, a `list` and a `dict` (its entries in order). Floats
      are carried as exact reals; the model never does arithmetic on them, it
      only passes them through. */
  datatype PyValue =
    | PyNone
    | PyBool(b: bool)
    | PyInt(i: int)
    | PyFloat(f: real)
    | PyStr(s: string)
    | PyList(items: seq<PyValue>)
    | PyDict(entries: seq<(string, PyValue)>)
}
