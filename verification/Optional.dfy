/** A value that may be missing: a nil error, an unset deadline, a key that is not there. */
module Optional {

  datatype Option<+T> = None | Some(value: T) {
    function GetOr(default: T): T { if Some? then value else default }
  }
}
