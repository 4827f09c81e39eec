/** The value-level picture of an environment chain: the local maps of an environment and of
    each of its ancestors, innermost first. Lookup and deletion walk this list the way
    `get_var`/`get_function` and `del_var`/`del_function` walk the `root` references. */
module Scopes {
  import opened Values

  type Frames<V> = seq<map<string, V>>

  /** `k` is bound in frame `i` and in no frame nearer the front. */
  predicate IsNearest<V>(fs: Frames<V>, k: string, i: int) {
    0 <= i < |fs| && k in fs[i] && forall j :: 0 <= j < i ==> k !in fs[j]
  }

  /** The binding of `k` in the nearest frame that has one. */
  function Lookup<V>(fs: Frames<V>, k: string): (r: Option<V>)
    ensures r.None? <==> forall i :: 0 <= i < |fs| ==> k !in fs[i]
    ensures r.Some? ==> exists i :: IsNearest(fs, k, i) && r.value == fs[i][k]
  {
    if fs == [] then None
    else if k in fs[0] then (assert IsNearest(fs, k, 0); Some(fs[0][k]))
    else
      var r := Lookup(fs[1..], k);
      assert forall i :: 1 <= i < |fs| ==> fs[i] == fs[1..][i - 1];
      assert r.Some? ==> exists i :: IsNearest(fs, k, i) && r.value == fs[i][k] by {
        if r.Some? {
          var i :| IsNearest(fs[1..], k, i) && r.value == fs[1..][i][k];
          assert IsNearest(fs, k, i + 1);
        }
      }
      r
  }

  /** Removes `k` from the nearest frame that binds it; with no binding anywhere, changes nothing. */
  function DeleteNearest<V>(fs: Frames<V>, k: string): (r: Frames<V>)
    ensures |r| == |fs|
    ensures forall i :: 0 <= i < |fs| ==> r[i] == if IsNearest(fs, k, i) then fs[i] - {k} else fs[i]
  {
    if fs == [] then []
    else if k in fs[0] then [fs[0] - {k}] + fs[1..]
    else
      var rest := DeleteNearest(fs[1..], k);
      assert forall i :: 1 <= i < |fs| ==> (IsNearest(fs, k, i) <==> IsNearest(fs[1..], k, i - 1));
      [fs[0]] + rest
  }

  /** A delete that finds no binding is a no-op (it never fails). */
  lemma {:induction false} DeleteAbsent<V>(fs: Frames<V>, k: string)
    requires Lookup(fs, k).None?
    ensures DeleteNearest(fs, k) == fs
  {
    var r := DeleteNearest(fs, k);
    forall i | 0 <= i < |fs| ensures r[i] == fs[i] {
      assert !IsNearest(fs, k, i);
    }
  }

  /** After a delete, looking the name up again finds the next binding further out. */
  lemma {:induction false} LookupAfterDelete<V>(fs: Frames<V>, k: string, i: int)
    requires IsNearest(fs, k, i)
    ensures Lookup(DeleteNearest(fs, k), k) == Lookup(fs[i + 1..], k)
  {
    if i > 0 {
      assert k !in fs[0];
      assert DeleteNearest(fs, k) == [fs[0]] + DeleteNearest(fs[1..], k);
      assert IsNearest(fs[1..], k, i - 1);
      LookupAfterDelete(fs[1..], k, i - 1);
      assert fs[1..][i..] == fs[i + 1..];
    } else {
      assert DeleteNearest(fs, k) == [fs[0] - {k}] + fs[1..];
    }
  }

  /** Deleting one name leaves every other name's lookup as it was. */
  lemma {:induction false} LookupAfterDeleteOther<V>(fs: Frames<V>, k: string, k': string)
    requires k != k'
    ensures Lookup(DeleteNearest(fs, k), k') == Lookup(fs, k')
  {
    if fs != [] {
      if k in fs[0] {
        assert DeleteNearest(fs, k) == [fs[0] - {k}] + fs[1..];
        assert ([fs[0] - {k}] + fs[1..])[1..] == fs[1..];
      } else {
        LookupAfterDeleteOther(fs[1..], k, k');
        assert ([fs[0]] + DeleteNearest(fs[1..], k))[1..] == DeleteNearest(fs[1..], k);
      }
    }
  }

  /** A binding written into the innermost frame is what lookup finds; other names, and
      every outer frame, are untouched. */
  lemma LookupAfterSetLocal<V>(fs: Frames<V>, k: string, v: V, k': string)
    requires |fs| > 0
    ensures Lookup(fs[0 := fs[0][k := v]], k) == Some(v)
    ensures k' != k ==> Lookup(fs[0 := fs[0][k := v]], k') == Lookup(fs, k')
    ensures fs[0 := fs[0][k := v]][1..] == fs[1..]
  {
    var fs' := fs[0 := fs[0][k := v]];
    assert fs'[1..] == fs[1..];
  }
}
