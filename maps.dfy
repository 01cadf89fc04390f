/** Python dictionary updates shared by the models. */
module Maps {

  /** `m.setdefault(key, v)` (Python). */
  function SetDefault<K, V>(m: map<K, V>, key: K, v: V): map<K, V> {
    if key in m then m else m[key := v]
  }

  /** `setdefault` applied for each pair of `ds` in turn. */
  function SetDefaults<K, V>(m: map<K, V>, ds: seq<(K, V)>): map<K, V>
    decreases |ds|
  {
    if ds == [] then m else SetDefaults(SetDefault(m, ds[0].0, ds[0].1), ds[1..])
  }

  /** The keys of a list of pairs, as a set. */
  function KeysOf<K, V>(ds: seq<(K, V)>): set<K> {
    set i | 0 <= i < |ds| :: ds[i].0
  }

  /**
   * Defaults only add: the keys become the old keys plus the default keys,
   * a key already present keeps its value, and a missing key gets the value of
   * its first pair.
   */
  lemma {:induction false} SetDefaultsFillsOnlyMissing<K, V>(m: map<K, V>, ds: seq<(K, V)>)
    ensures SetDefaults(m, ds).Keys == m.Keys + KeysOf(ds)
    ensures forall k :: k in m ==> SetDefaults(m, ds)[k] == m[k]
    ensures forall i ::
      (0 <= i < |ds| && ds[i].0 !in m && (forall j :: 0 <= j < i ==> ds[j].0 != ds[i].0)) ==>
      SetDefaults(m, ds)[ds[i].0] == ds[i].1
    decreases |ds|
  {
    if ds != [] {
      var m1 := SetDefault(m, ds[0].0, ds[0].1);
      SetDefaultsFillsOnlyMissing(m1, ds[1..]);
      assert KeysOf(ds) == {ds[0].0} + KeysOf(ds[1..]) by {
        forall x | x in KeysOf(ds) ensures x in {ds[0].0} + KeysOf(ds[1..]) {
          var i :| 0 <= i < |ds| && ds[i].0 == x;
          if i > 0 { assert ds[1..][i - 1].0 == x; }
        }
        forall x | x in KeysOf(ds[1..]) ensures x in KeysOf(ds) {
          var i :| 0 <= i < |ds[1..]| && ds[1..][i].0 == x;
          assert ds[i + 1].0 == x;
        }
      }
      forall i | 0 <= i < |ds| && ds[i].0 !in m && (forall j :: 0 <= j < i ==> ds[j].0 != ds[i].0)
        ensures SetDefaults(m, ds)[ds[i].0] == ds[i].1
      {
        if i > 0 {
          assert ds[1..][i - 1] == ds[i];
          assert forall j :: 0 <= j < i - 1 ==> ds[1..][j] == ds[j + 1];
        }
      }
    }
  }
  /**
   * Two rounds of defaults over `p`: a key of `p` keeps its value, a key of
   * the first list that `p` lacks takes its value there, and a key of the
   * second list that neither holds takes its value there.
   */
  lemma TwoRoundsOfDefaults<K, V>(p: map<K, V>, a: seq<(K, V)>, b: seq<(K, V)>)
    requires forall i, j :: 0 <= i < j < |a| ==> a[i].0 != a[j].0
    requires forall i, j :: 0 <= i < j < |b| ==> b[i].0 != b[j].0
    ensures var r := SetDefaults(SetDefaults(p, a), b);
      (forall k :: k in p ==> k in r && r[k] == p[k])
      && (forall i :: 0 <= i < |a| && a[i].0 !in p ==> a[i].0 in r && r[a[i].0] == a[i].1)
      && (forall i :: 0 <= i < |b| && b[i].0 !in p && b[i].0 !in KeysOf(a) ==> b[i].0 in r && r[b[i].0] == b[i].1)
  {
    var m1 := SetDefaults(p, a);
    SetDefaultsFillsOnlyMissing(p, a);
    SetDefaultsFillsOnlyMissing(m1, b);
    forall i | 0 <= i < |a| && a[i].0 !in p
      ensures a[i].0 in SetDefaults(m1, b) && SetDefaults(m1, b)[a[i].0] == a[i].1
    {
      assert a[i].0 in KeysOf(a);
    }
    forall i | 0 <= i < |b| && b[i].0 !in p && b[i].0 !in KeysOf(a)
      ensures b[i].0 in SetDefaults(m1, b) && SetDefaults(m1, b)[b[i].0] == b[i].1
    {
      assert b[i].0 in KeysOf(b);
    }
  }
}
