/** Tables keyed by row id: listing them, and walking them row by row. */
module Tables {

  predicate KeysBelow<T>(m: map<nat, T>, n: nat) {
    forall k :: k in m ==> k < n
  }

  /** The rows whose ids lie below n, in id order: the order rows come back before any ORDER BY. */
  function Rows<T(!new)>(m: map<nat, T>, n: nat): (r: seq<T>)
    ensures forall k :: k in m && k < n ==> m[k] in r
    ensures forall x :: x in r ==> exists k :: k in m && k < n && m[k] == x
  {
    if n == 0 then []
    else Rows(m, n - 1) + (if n - 1 in m then [m[n - 1]] else [])
  }

  /** Once every id lies below n, the listing holds exactly the table's rows. */
  lemma RowsAreValues<T(!new)>(m: map<nat, T>, n: nat)
    requires KeysBelow(m, n)
    ensures forall x :: x in Rows(m, n) <==> x in m.Values
  {
    forall x | x in m.Values ensures x in Rows(m, n) {
      var k :| k in m && m[k] == x;
    }
  }

  function KeysUnder<T>(m: map<nat, T>, n: nat): set<nat> {
    set k | k in m && k < n
  }

  /** The listing has one entry per id below n. */
  lemma {:induction false} RowsCount<T(!new)>(m: map<nat, T>, n: nat)
    ensures |Rows(m, n)| == |KeysUnder(m, n)|
  {
    if n > 0 {
      RowsCount(m, n - 1);
      if n - 1 in m {
        assert KeysUnder(m, n) == KeysUnder(m, n - 1) + {n - 1};
      } else {
        assert KeysUnder(m, n) == KeysUnder(m, n - 1);
      }
    }
  }

  /** Once every id lies below n, the listing is as long as the table. */
  lemma RowsCountAll<T(!new)>(m: map<nat, T>, n: nat)
    requires KeysBelow(m, n)
    ensures |Rows(m, n)| == |m|
  {
    RowsCount(m, n);
    assert KeysUnder(m, n) == m.Keys;
  }

  /** Keeps the rows whose value satisfies keep, visiting the table row by row. */
  method FilterRows<K, V>(m: map<K, V>, keep: V -> bool) returns (r: map<K, V>)
    ensures r == map k | k in m && keep(m[k]) :: m[k]
  {
    r := map[];
    var todo := m.Keys;
    while todo != {}
      invariant todo <= m.Keys
      invariant r == map k | k in m.Keys - todo && keep(m[k]) :: m[k]
      decreases todo
    {
      var k :| k in todo;
      if keep(m[k]) {
        r := r[k := m[k]];
      }
      todo := todo - {k};
    }
  }

  /** Rewrites every row with f, visiting the table row by row. */
  method MapRows<K, V>(m: map<K, V>, f: V -> V) returns (r: map<K, V>)
    ensures r == map k | k in m :: f(m[k])
  {
    r := map[];
    var todo := m.Keys;
    while todo != {}
      invariant todo <= m.Keys
      invariant r == map k | k in m.Keys - todo :: f(m[k])
      decreases todo
    {
      var k :| k in todo;
      r := r[k := f(m[k])];
      todo := todo - {k};
    }
  }
}
