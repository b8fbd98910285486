/** Small definitions that several components share. */
module Common {

  datatype Option<T> = None | Some(value: T)

  /** The sequence without its element at index i. */
  function Without<T>(s: seq<T>, i: nat): seq<T>
    requires i < |s|
  {
    s[..i] + s[i + 1..]
  }
}
