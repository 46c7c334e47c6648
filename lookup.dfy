/** First-match lookup by name, the rule every `find_*_by_name` of the harness follows. */
module Lookup {
  import opened Wrappers

  /** The position of the first entry of `names` equal to `name`, or None when there is none. */
  function FirstIndexOf(names: seq<string>, name: string): (r: Option<nat>)
    ensures r.None? <==> name !in names
    ensures r.Some? ==> r.value < |names| && names[r.value] == name && name !in names[..r.value]
  {
    if names == [] then None
    else if names[0] == name then Some(0)
    else match FirstIndexOf(names[1..], name)
      case None => None
      case Some(k) =>
        assert names[..k + 1] == [names[0]] + names[1..][..k];
        Some(k + 1)
  }
}
