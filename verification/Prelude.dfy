/** What every module needs. */
module Prelude {
  datatype Option<+T> = None | Some(value: T)

  /** The sequence with element `k` taken out. */
  function Without<T>(xs: seq<T>, k: nat): seq<T>
    requires k < |xs|
  {
    xs[..k] + xs[k + 1..]
  }
}
