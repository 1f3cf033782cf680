/** Outcomes of the cleanup job's steps: a value, or the exception that the
    step raises and that aborts the whole run. */
module Results {

  datatype Option<+T> = None | Some(value: T)

  /** The exceptions the modelled code can raise (all of them abort the run). */
  datatype Error =
    | UnhashableValue  // TypeError: a mapping or a list is put into a Python set
    | NotIterable      // TypeError: set() of None, a boolean or a number
    | NoGetMethod      // AttributeError: `.get` on a knowledge document that is not a mapping
    | PathIsNone       // TypeError: os.path.basename(None) for a file row without a path
    | ListingFailed    // os.listdir of the uploads directory raised

  datatype Result<+T> = Ok(value: T) | Err(error: Error)
}
