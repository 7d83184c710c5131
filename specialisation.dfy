/** How a C++ class template with explicit (or partial) specialisations picks the
    constant it defines: each specialisation is listed with the template arguments it
    matches; an instantiation whose arguments match one of them takes that
    specialisation's constant, and any other instantiation falls back to the primary
    template's constant. The compiler refuses two specialisations for the same
    arguments, so in a well-formed table every key appears at most once.
 */
module Specialisation {

  /** No two specialisations are declared for the same template arguments. */
  predicate DistinctKeys<K(==), V>(specs: seq<(K, V)>) {
    forall i, j :: 0 <= i < j < |specs| ==> specs[i].0 != specs[j].0
  }

  /** Some specialisation is declared for the template arguments `key`. */
  predicate Declares<K(==), V>(specs: seq<(K, V)>, key: K) {
    exists i :: 0 <= i < |specs| && specs[i].0 == key
  }

  /** The constant that instantiating the template with `key` defines. */
  function Instantiate<K(==), V>(specs: seq<(K, V)>, primary: V, key: K): (r: V)
    ensures !Declares(specs, key) ==> r == primary
    ensures Declares(specs, key) ==> exists i :: 0 <= i < |specs| && specs[i] == (key, r)
  {
    if specs == [] then primary
    else if specs[0].0 == key then specs[0].1
    else
      var r := Instantiate(specs[1..], primary, key);
      assert Declares(specs, key) ==> Declares(specs[1..], key) by {
        if Declares(specs, key) {
          var i :| 0 <= i < |specs| && specs[i].0 == key;
          assert specs[1..][i - 1].0 == key;
        }
      }
      assert Declares(specs[1..], key) ==> exists i :: 0 <= i < |specs| && specs[i] == (key, r) by {
        if Declares(specs[1..], key) {
          var j :| 0 <= j < |specs[1..]| && specs[1..][j] == (key, r);
          assert specs[j + 1] == (key, r);
        }
      }
      r
  }

  /** When the table is well formed, the arguments of a declared specialisation
      select exactly that specialisation's constant, wherever it stands in the table. */
  lemma InstantiateSelects<K, V>(specs: seq<(K, V)>, primary: V, i: int)
    requires DistinctKeys(specs)
    requires 0 <= i < |specs|
    ensures Instantiate(specs, primary, specs[i].0) == specs[i].1
  {
  }
}
