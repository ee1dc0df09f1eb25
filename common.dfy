/** Small definitions shared by the modules of this model. */
module Common {
  datatype Option<+T> = None | Some(value: T)

  /** The total of a sequence of byte counts. */
  function Sum(ws: seq<nat>): nat {
    if ws == [] then 0 else ws[0] + Sum(ws[1..])
  }
}
