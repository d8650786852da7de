/** A value that may be absent: a stored token that was never written, an
    alert that is not shown, a request that was never sent. */
module Optional {

  datatype Option<+T> = None | Some(value: T)
}
