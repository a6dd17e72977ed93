/** The nullable results of the Kotlin code (`Int?`) as an Option. */
module Wrappers {

  datatype Option<+T> = None | Some(value: T)

}
