/** A tokio watch channel: the stored value and its version. A receiver is only the version it has last seen. */
module Watches {

  datatype Watch = Watch(version: nat, value: bool) {

    /** `send_replace`: always a new version, even when the value is the same. */
    function Replace(v: bool): Watch {
      Watch(version + 1, v)
    }

    /** Whether `changed()` resolves at once for a receiver that last saw version `seen`. */
    predicate ChangedSince(seen: nat) {
      version != seen
    }
  }

  const FRESH := Watch(0, false)
}
