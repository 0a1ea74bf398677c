/** The `timeRange` computed property: a pair view over the two optional
    fields `beginTime` and `endTime` of the search form parameters. */
module TimeRangeView {
  import opened ListTypes

  /** JavaScript truthiness of an optional string: present and non-empty. */
  predicate Truthy(s: Option<string>)
  {
    s.Some? && s.value != ""
  }

  /** The getter: a pair when both ends are truthy, `null` otherwise. */
  function Get(beginTime: Option<string>, endTime: Option<string>): (r: Option<(string, string)>)
    ensures r.Some? <==> Truthy(beginTime) && Truthy(endTime)
    ensures r.Some? ==> r.value.0 != "" && r.value.1 != ""
    ensures r.Some? ==> Some(r.value.0) == beginTime && Some(r.value.1) == endTime
  {
    if Truthy(beginTime) && Truthy(endTime) then Some((beginTime.value, endTime.value)) else None
  }

  /** The setter: the new `(beginTime, endTime)`. `v` is `None` for `null` or
      `undefined`; a value of any length other than two clears both ends. */
  function Set(v: Option<seq<string>>): (r: (Option<string>, Option<string>))
    ensures (v.Some? && |v.value| == 2) ==> r == (Some(v.value[0]), Some(v.value[1]))
    ensures !(v.Some? && |v.value| == 2) ==> r == (None, None)
    ensures r.0.Some? <==> r.1.Some?
  {
    if v.Some? && |v.value| == 2 then (Some(v.value[0]), Some(v.value[1])) else (None, None)
  }

  /** Setting a pair of non-empty strings and reading back gives the pair. */
  lemma SetThenGet(a: string, b: string)
    requires a != "" && b != ""
    ensures var (bt, et) := Set(Some([a, b])); Get(bt, et) == Some((a, b))
  {
  }

  /** Setting anything but a two-element value reads back as `null`. */
  lemma SetOtherThenGet(v: Option<seq<string>>)
    requires !(v.Some? && |v.value| == 2)
    ensures var (bt, et) := Set(v); bt == None && et == None && Get(bt, et) == None
  {
  }

  /** Writing back what the getter returned leaves both fields as they were. */
  lemma GetThenSet(beginTime: Option<string>, endTime: Option<string>)
    requires Get(beginTime, endTime).Some?
    ensures var p := Get(beginTime, endTime).value; Set(Some([p.0, p.1])) == (beginTime, endTime)
  {
  }

  /** A two-element value with an empty end is stored, yet reads back as `null`. */
  lemma SetWithEmptyEndReadsNull(a: string, b: string)
    requires a == "" || b == ""
    ensures var (bt, et) := Set(Some([a, b])); bt == Some(a) && et == Some(b) && Get(bt, et) == None
  {
  }
}
