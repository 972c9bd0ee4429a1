/** A JavaScript `Record<string, string>` (team name to team key) as the
    sequence of its entries in `Object.keys` order.  Objects never hold a name
    twice, so every dictionary the bot builds has distinct names. */
module Dict {
  import opened Optional

  type Entries = seq<(string, string)>

  /** A dictionary as the bot holds it: no name twice. */
  type Dict = d: Entries | DistinctNames(d)

  /** `Object.keys(d)` */
  function Names(d: Entries): (names: seq<string>)
    ensures |names| == |d|
    ensures forall i :: 0 <= i < |d| ==> names[i] == d[i].0
  {
    if |d| == 0 then [] else [d[0].0] + Names(d[1..])
  }

  /** `d[name]`, absent when the name is not a key. */
  function Get(d: Entries, name: string): (r: Option<string>)
    ensures r.None? <==> forall i :: 0 <= i < |d| ==> d[i].0 != name
    ensures r.Some? ==> exists i :: 0 <= i < |d| && d[i] == (name, r.value)
  {
    if |d| == 0 then None
    else if d[0].0 == name then Some(d[0].1)
    else Get(d[1..], name)
  }

  predicate DistinctNames(d: Entries) {
    forall i, j :: 0 <= i < j < |d| ==> d[i].0 != d[j].0
  }

  /** The key listed at position `i` of the menu is the key stored for that
      position's name. */
  lemma {:induction false} GetAt(d: Entries, i: nat)
    requires DistinctNames(d) && i < |d|
    ensures Get(d, Names(d)[i]) == Some(d[i].1)
  {
    if i > 0 {
      assert d[0].0 != d[i].0;
      assert DistinctNames(d[1..]) by {
        forall a, b | 0 <= a < b < |d[1..]| ensures d[1..][a].0 != d[1..][b].0 {
          assert d[1..][a] == d[a + 1] && d[1..][b] == d[b + 1];
        }
      }
      GetAt(d[1..], i - 1);
      assert d[1..][i - 1] == d[i];
    }
  }
}
