/** Searching a sequence for a value, as `np.where(a == v)[0][0]` and
    `list.index` do. */
module Sequences {
  import opened Wrappers

  /** The first position of `v` in `s`, or None when `v` does not occur. */
  function Find<T(==)>(s: seq<T>, v: T): (r: Option<nat>)
    ensures r.None? <==> v !in s
    ensures r.Some? ==> r.value < |s| && s[r.value] == v && v !in s[..r.value]
  {
    if |s| == 0 then None
    else if s[0] == v then Some(0)
    else
      var rest := Find(s[1..], v);
      assert s == [s[0]] + s[1..];
      if rest.Some? then
        assert s[..rest.value + 1] == [s[0]] + s[1..][..rest.value];
        Some(rest.value + 1)
      else None
  }
}
