/**
 * PHP arrays as the plugin uses them: ordered maps whose entries keep the
 * order in which their keys were first assigned, and `CHtml::listData`,
 * which builds such an array from query rows, one `$a[$key] = $value`
 * per row.
 */
module PhpArray {

  datatype Option<T> = None | Some(value: T)

  /** The keys of an ordered array, in order. */
  function Keys<K, V>(a: seq<(K, V)>): seq<K>
  {
    seq(|a|, i requires 0 <= i < |a| => a[i].0)
  }

  /** The values of an ordered array, in order (what `foreach` visits). */
  function Values<K, V>(a: seq<(K, V)>): seq<V>
  {
    seq(|a|, i requires 0 <= i < |a| => a[i].1)
  }

  /** No key occurs twice: every array built by `Assign` has this shape. */
  predicate UniqueKeys<K(==, !new), V>(a: seq<(K, V)>)
  {
    forall i, j :: 0 <= i < j < |a| ==> a[i].0 != a[j].0
  }

  /** `$a[$k]`: the value stored under `k`, if any. */
  function Lookup<K(==, !new), V>(a: seq<(K, V)>, k: K): (r: Option<V>)
    ensures r.Some? <==> k in Keys(a)
    ensures r.Some? ==> (k, r.value) in a
  {
    if a == [] then None
    else
      assert Keys(a) == [a[0].0] + Keys(a[1..]);
      if a[0].0 == k then Some(a[0].1) else Lookup(a[1..], k)
  }

  /**
   * `$a[$k] = $v`: an existing key keeps its position and takes the new
   * value; a new key is appended at the end.
   */
  function Assign<K(==, !new), V>(a: seq<(K, V)>, k: K, v: V): (r: seq<(K, V)>)
    ensures k in Keys(a) ==> Keys(r) == Keys(a)
    ensures k !in Keys(a) ==> r == a + [(k, v)]
    ensures forall e :: e in r ==> e in a || e == (k, v)
  {
    if a == [] then [(k, v)]
    else
      assert Keys(a) == [a[0].0] + Keys(a[1..]);
      if a[0].0 == k then
        assert Keys([(k, v)] + a[1..]) == [k] + Keys(a[1..]);
        [(k, v)] + a[1..]
      else
        var rest := Assign(a[1..], k, v);
        assert Keys([a[0]] + rest) == [a[0].0] + Keys(rest);
        assert a == [a[0]] + a[1..];
        [a[0]] + rest
  }

  /** After `$a[$k] = $v`, `k` reads `v` and every other key reads what it did before. */
  lemma {:induction false} AssignLookup<K(!new), V>(a: seq<(K, V)>, k: K, v: V, k': K)
    ensures Lookup(Assign(a, k, v), k') == if k' == k then Some(v) else Lookup(a, k')
  {
    if a != [] && a[0].0 != k {
      AssignLookup(a[1..], k, v, k');
    }
  }

  /** Assignment never introduces a second entry for a key. */
  lemma AssignKeepsUniqueKeys<K(!new), V>(a: seq<(K, V)>, k: K, v: V)
    requires UniqueKeys(a)
    ensures UniqueKeys(Assign(a, k, v))
  {
    var r := Assign(a, k, v);
    if k in Keys(a) {
      forall i, j | 0 <= i < j < |r| ensures r[i].0 != r[j].0 {
        assert Keys(r)[i] == Keys(a)[i] && Keys(r)[j] == Keys(a)[j];
      }
    } else {
      forall i, j | 0 <= i < j < |r| ensures r[i].0 != r[j].0 {
        if j == |a| {
          assert Keys(a)[i] == a[i].0;
        }
      }
    }
  }

  /** Reference meaning of a key in a list of rows: the value of the LAST row with that key. */
  function LastValue<K(==, !new), V>(rows: seq<(K, V)>, k: K): (r: Option<V>)
    ensures r.None? <==> forall i :: 0 <= i < |rows| ==> rows[i].0 != k
    ensures r.Some? ==> exists i :: 0 <= i < |rows| && rows[i] == (k, r.value) &&
                                    forall j :: i < j < |rows| ==> rows[j].0 != k
  {
    if rows == [] then None
    else if rows[|rows| - 1].0 == k then Some(rows[|rows| - 1].1)
    else LastValue(rows[..|rows| - 1], k)
  }

  /** `CHtml::listData($rows, key, value)`: assign every row in order. */
  function ListData<K(==, !new), V>(rows: seq<(K, V)>): (r: seq<(K, V)>)
    ensures UniqueKeys(r)
    ensures forall e :: e in r ==> e in rows
  {
    if rows == [] then []
    else
      var init := ListData(rows[..|rows| - 1]);
      AssignKeepsUniqueKeys(init, rows[|rows| - 1].0, rows[|rows| - 1].1);
      assert forall e :: e in init ==> e in rows[..|rows| - 1];
      Assign(init, rows[|rows| - 1].0, rows[|rows| - 1].1)
  }

  /** Later rows overwrite earlier ones: a key maps to its last row's value. */
  lemma {:induction false} ListDataLookup<K(!new), V>(rows: seq<(K, V)>, k: K)
    ensures Lookup(ListData(rows), k) == LastValue(rows, k)
  {
    if rows != [] {
      ListDataLookup(rows[..|rows| - 1], k);
      AssignLookup(ListData(rows[..|rows| - 1]), rows[|rows| - 1].0, rows[|rows| - 1].1, k);
    }
  }

  /** Rows whose keys are already unique come back unchanged, in order. */
  lemma {:induction false} ListDataOfUniqueKeys<K(!new), V>(rows: seq<(K, V)>)
    requires UniqueKeys(rows)
    ensures ListData(rows) == rows
  {
    if rows != [] {
      var init := rows[..|rows| - 1];
      ListDataOfUniqueKeys(init);
      var last := rows[|rows| - 1];
      assert last.0 !in Keys(init) by {
        forall i | 0 <= i < |init| ensures Keys(init)[i] != last.0 {
          assert rows[i].0 != rows[|rows| - 1].0;
        }
      }
      assert init + [last] == rows;
    }
  }

  /** The keys of `ListData(rows)` are exactly the keys that occur in `rows`. */
  lemma {:induction false} ListDataKeys<K(!new), V>(rows: seq<(K, V)>, k: K)
    ensures k in Keys(ListData(rows)) <==> k in Keys(rows)
  {
    ListDataLookup(rows, k);
    var lv := LastValue(rows, k);
    if k in Keys(rows) {
      var i :| 0 <= i < |rows| && Keys(rows)[i] == k;
      assert rows[i].0 == k;
    } else {
      forall i | 0 <= i < |rows| ensures rows[i].0 != k {
        assert Keys(rows)[i] == rows[i].0;
      }
    }
  }
}
