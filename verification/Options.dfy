/** Values that may be missing, and how steps end. */
module Options {
  datatype Option<+T> = None | Some(value: T)

  /** A step on the disk: done, failed without effect, or cut short by a crash. */
  datatype Verdict = Done | Error | Crash

  /** A step on a component: it works; it fails; or it takes effect and reports an error. */
  datatype Fate = Fine | Fails | Misreported
}
