/** The JavaScript `undefined`/`null` versus a present value. */
module Optional {

  datatype Option<+T> = None | Some(value: T)

  /** A JavaScript string that is present and not empty. */
  predicate Truthy(v: Option<string>)
  {
    v.Some? && v.value != ""
  }

  /** `v || null`: an absent or empty string becomes null. */
  function OrNull(v: Option<string>): (r: Option<string>)
    ensures r.None? <==> v.None? || v == Some("")
    ensures r.Some? ==> r == v
  {
    if Truthy(v) then v else None
  }
}
