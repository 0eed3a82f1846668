/** The option tables of both clients are lists of key/flag pairs searched
    with `List.Find(pair => pair.Key == key)`, whose miss is the default pair. */
module Tables {
  import opened Wrappers

  type Table = seq<(string, string)>

  /** The flag of the first pair whose key is `key`, or None when there is none. */
  function Lookup(table: Table, key: string): Option<string> {
    if table == [] then None
    else if table[0].0 == key then Some(table[0].1)
    else Lookup(table[1..], key)
  }

  /** `Lookup` misses exactly when no pair has the key, and a hit is the flag
      of the first pair that has it. */
  lemma {:induction false} LookupFirst(table: Table, key: string)
    ensures Lookup(table, key).None? <==> forall i :: 0 <= i < |table| ==> table[i].0 != key
    ensures Lookup(table, key).Some? ==>
              exists i :: 0 <= i < |table| && table[i] == (key, Lookup(table, key).value)
                          && forall j :: 0 <= j < i ==> table[j].0 != key
  {
    if table != [] && table[0].0 != key {
      LookupFirst(table[1..], key);
      var r := Lookup(table, key);
      if r.Some? {
        var i :| 0 <= i < |table[1..]| && table[1..][i] == (key, r.value)
                 && forall j :: 0 <= j < i ==> table[1..][j].0 != key;
        assert table[i + 1] == (key, r.value);
        assert forall j :: 0 <= j < i + 1 ==> table[j].0 != key by {
          forall j | 0 <= j < i + 1 ensures table[j].0 != key {
            if j > 0 { assert table[j] == table[1..][j - 1]; }
          }
        }
      }
    }
  }

  /** A key that no pair has misses. */
  lemma {:induction false} LookupAbsent(table: Table, key: string)
    requires forall i :: 0 <= i < |table| ==> table[i].0 != key
    ensures Lookup(table, key).None?
  {
    if table != [] {
      LookupAbsent(table[1..], key);
    }
  }

  /** `List.Find` with the key predicate: a front-to-back scan. */
  method Find(table: Table, key: string) returns (r: Option<string>)
    ensures r == Lookup(table, key)
  {
    var i := 0;
    while i < |table|
      invariant 0 <= i <= |table|
      invariant Lookup(table, key) == Lookup(table[i..], key)
    {
      if table[i].0 == key {
        return Some(table[i].1);
      }
      assert table[i..][1..] == table[i + 1..];
      i := i + 1;
    }
    r := None;
  }
}
