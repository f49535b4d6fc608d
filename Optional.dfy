/** The usual optional-value wrapper, standing for Python's `None`. */
module Optional {

  datatype Option<+T> = None | Some(value: T)
}
