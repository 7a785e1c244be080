/** Small vocabulary shared by the other modules. */
module Base {

  datatype Option<+T> = None | Some(value: T)

  /** Database and provider identifiers: the program only ever compares them. */
  type Id = nat

  function Get<K, V>(m: map<K, V>, k: K): (r: Option<V>)
    ensures r == None <==> k !in m
    ensures k in m ==> r == Some(m[k])
  {
    if k in m then Some(m[k]) else None
  }

  /** JavaScript's `a ?? b` on optional values. */
  function OrElse<T>(a: Option<T>, b: Option<T>): Option<T> {
    if a.Some? then a else b
  }

  lemma {:induction false} SubsetSize<T>(a: set<T>, b: set<T>)
    requires a <= b
    ensures |a| <= |b| && (|a| == |b| ==> a == b)
    decreases |a|
  {
    if a != {} {
      var t :| t in a;
      SubsetSize(a - {t}, b - {t});
      assert a == (a - {t}) + {t} && b == (b - {t}) + {t};
    }
  }
}
