/** Value types shared by the three client-side stores. */
module Common {

  /** A nullable or possibly-undefined value: `null`/`undefined` is `None`. */
  datatype Option<+T> = None | Some(value: T)

  /** The two genders a passenger or driver record may carry. */
  datatype Gender = Male | Female

  /** A latitude/longitude pair in degrees; no arithmetic on it is modelled. */
  datatype Coordinate = Coordinate(lat: real, lng: real)
}
