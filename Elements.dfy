/** The element record the application fetches and displays. */
module Elements {

  datatype Option<T> = None | Some(value: T)

  /** One chemical element as returned by the element-data service. The
      atomic number is a JavaScript number; the model takes it to be an
      integer. */
  datatype ElementInfo = ElementInfo(
    name: string,
    symbol: string,
    atomicNumber: int,
    atomicMass: real,
    category: string,
    description: string,
    environmentInfo: string,
    commonUses: seq<string>,
    funFact: string)
}
