/** Small shared vocabulary: optional values, the outcome of a backend call, and the
    "last assignment wins" map that `forEach(item => m[key(item)] = value(item))` builds. */
module Common {

  datatype Option<T> = None | Some(value: T) {
    function GetOr(default: T): T {
      if Some? then value else default
    }
  }

  /** A backend call (a Supabase query, an edge-function invocation, an RPC) seen only
      through what the caller does with it: it either returns data or throws. */
  datatype Outcome<T> = Succeeded(data: T) | Failed

  /** A rendered badge: its style variant and its text. */
  datatype BadgeVariant = Default | Secondary | Destructive | Outline

  datatype Badge = Badge(variant: BadgeVariant, text: string)

  /** The map obtained by assigning `m[k] := v` for each pair in order. */
  function MapOfPairs<K(==), V>(ps: seq<(K, V)>): map<K, V>
  {
    if |ps| == 0 then map[] else MapOfPairs(ps[..|ps| - 1])[ps[|ps| - 1].0 := ps[|ps| - 1].1]
  }

  /** A key is present exactly when some pair carries it. */
  lemma {:induction false} MapOfPairsKeys<K, V>(ps: seq<(K, V)>, k: K)
    ensures k in MapOfPairs(ps) <==> exists i :: 0 <= i < |ps| && ps[i].0 == k
  {
    if |ps| > 0 {
      var init := ps[..|ps| - 1];
      MapOfPairsKeys(init, k);
      if k in MapOfPairs(init) {
        var i :| 0 <= i < |init| && init[i].0 == k;
        assert ps[i].0 == k;
      }
      if exists i :: 0 <= i < |ps| && ps[i].0 == k {
        var i :| 0 <= i < |ps| && ps[i].0 == k;
        if i < |ps| - 1 {
          assert init[i].0 == k;
        }
      }
    }
  }

  /** The value stored under a key is the one of the LAST pair carrying that key. */
  lemma {:induction false} MapOfPairsLastWins<K, V>(ps: seq<(K, V)>, i: nat)
    requires i < |ps|
    requires forall j :: i < j < |ps| ==> ps[j].0 != ps[i].0
    ensures ps[i].0 in MapOfPairs(ps) && MapOfPairs(ps)[ps[i].0] == ps[i].1
  {
    if i < |ps| - 1 {
      var init := ps[..|ps| - 1];
      MapOfPairsLastWins(init, i);
    }
  }

  /** The `forEach` loop that fills a fresh map, one assignment per element. */
  method FillMap<K(==), V>(ps: seq<(K, V)>) returns (m: map<K, V>)
    ensures m == MapOfPairs(ps)
  {
    m := map[];
    var i := 0;
    while i < |ps|
      invariant 0 <= i <= |ps|
      invariant m == MapOfPairs(ps[..i])
    {
      assert ps[..i + 1][..i] == ps[..i];
      m := m[ps[i].0 := ps[i].1];
      i := i + 1;
    }
    assert ps[..|ps|] == ps;
  }
}
