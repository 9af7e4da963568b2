/**
 * The URLs the admin page and the Discord route fetch the snapshot route
 * with, and URLSearchParams.get, with which the snapshot route and the
 * admin page read their query parameters.
 */
module Urls {
  import opened Wrappers

  /** The path of the snapshot route. */
  const SnapshotPath: string := "/api/admin/snapshot"

  /**
   * A URL: the origin it is resolved against (None for a relative URL),
   * the path and the query parameters in order.
   */
  datatype Url = Url(origin: Option<string>, path: string, query: seq<(string, string)>)

  /** URLSearchParams.get: the value of the first parameter with that name, if any. */
  function Param(query: seq<(string, string)>, name: string): (v: Option<string>)
    ensures v.Some? <==> exists i :: 0 <= i < |query| && query[i].0 == name
    ensures v.Some? ==>
              exists i :: && 0 <= i < |query| && query[i] == (name, v.value)
                          && forall j :: 0 <= j < i ==> query[j].0 != name
  {
    if query == [] then None
    else if query[0].0 == name then Some(query[0].1)
    else
      var v := Param(query[1..], name);
      assert v.Some? ==> exists i :: 1 <= i < |query| && query[i] == (name, v.value)
                                     && forall j :: 0 <= j < i ==> query[j].0 != name by {
        if v.Some? {
          var i :| 0 <= i < |query[1..]| && query[1..][i] == (name, v.value)
                   && forall j :: 0 <= j < i ==> query[1..][j].0 != name;
          assert query[i + 1] == (name, v.value);
          assert forall j :: 0 <= j < i + 1 ==> query[j].0 != name by {
            forall j | 0 <= j < i + 1
              ensures query[j].0 != name
            {
              if j > 0 {
                assert query[j] == query[1..][j - 1];
              }
            }
          }
        }
      }
      assert v.Some? <==> exists i :: 0 <= i < |query| && query[i].0 == name by {
        if exists i :: 0 <= i < |query| && query[i].0 == name {
          var i :| 0 <= i < |query| && query[i].0 == name;
          assert i > 0 && query[1..][i - 1].0 == name;
        }
      }
      v
  }
}
