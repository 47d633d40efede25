/** The abstract result of one remote feed read (a request plus its JSON decoding). */
module Remote {
  import opened Wrappers

  /**
   * `Failed` stands for a rejected request or a body that is not JSON;
   * `NullBody` for a body that decodes to JSON `null`, on which reading
   * `feeds` throws (optional chaining guards only `.length`); `Fetched`
   * carries the `feeds` array.  A JSON object without a `feeds` array
   * behaves exactly like one with an empty array at every call site, so it is
   * represented as `Fetched([])`.
   */
  datatype Read<F> = Failed | NullBody | Fetched(feeds: seq<F>)

  /** The most recent record of a read (`json.feeds[0]`), if the read produced one. */
  function Latest<F>(r: Read<F>): (o: Option<F>)
    ensures o.Some? <==> r.Fetched? && |r.feeds| > 0
    ensures o.Some? ==> o.value == r.feeds[0]
  {
    if r.Fetched? && |r.feeds| > 0 then Some(r.feeds[0]) else None
  }
}
