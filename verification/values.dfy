/**
  Configuration values as the plugin sees them: the host tool's configuration
  is a flat mapping from setting names to scalar values, and the only scalar
  kinds that occur among the plugin's settings are None, strings, integers and
  booleans.
 */
module Values {

  /** A scalar configuration value. */
  datatype Value =
    | NoneValue
    | Str(s: string)
    | Int(i: int)
    | Bool(b: bool)

  /** The falsy scalars of the host language: None, the empty string, zero
      and False. */
  const FalsyValues: set<Value> := {NoneValue, Str(""), Int(0), Bool(false)}

  /** Truth value of a scalar under the host language's rules (the test behind
      `if value:`): a scalar is true exactly when it is not one of the falsy ones. */
  predicate Truthy(v: Value)
    ensures Truthy(v) <==> v !in FalsyValues
  {
    match v
    case NoneValue => false
    case Str(s) => s != ""
    case Int(i) => i != 0
    case Bool(b) => b
  }

  /** Outcome of an operation that looks settings up with `config[key]`: either
      a value, or the key whose lookup raised. */
  datatype Result<+T> = Ok(value: T) | KeyError(key: string)

  datatype Option<+T> = None | Some(value: T)

  /** A configuration as the host tool hands it to the plugin. */
  type Config = map<string, Value>

  /** An ordered list of (name, value) pairs, as produced by iterating over
      the items of an insertion-ordered dictionary. */
  type Entries = seq<(string, Value)>

  /** No name occurs twice among the entries (true of every dictionary's items). */
  predicate DistinctKeys(e: Entries)
  {
    forall i, j :: 0 <= i < j < |e| ==> e[i].0 != e[j].0
  }

  /** The dictionary built from a list of pairs; when a name repeats, the later
      pair wins, as in the host language's `dict(pairs)`. */
  function ToDict(e: Entries): (d: Config)
    ensures forall k :: k in d <==> exists i :: 0 <= i < |e| && e[i].0 == k
  {
    if e == [] then map[]
    else
      var last := e[|e| - 1];
      var d := ToDict(e[..|e| - 1])[last.0 := last.1];
      assert forall i :: 0 <= i < |e| - 1 ==> e[..|e| - 1][i] == e[i];
      d
  }

  /** With distinct names, every pair survives into the dictionary unchanged. */
  lemma {:induction false} ToDictAt(e: Entries, i: nat)
    requires DistinctKeys(e)
    requires i < |e|
    ensures e[i].0 in ToDict(e) && ToDict(e)[e[i].0] == e[i].1
  {
    if i < |e| - 1 {
      var init := e[..|e| - 1];
      assert DistinctKeys(init) by {
        forall a, b | 0 <= a < b < |init| ensures init[a].0 != init[b].0 {
          assert init[a] == e[a] && init[b] == e[b];
        }
      }
      ToDictAt(init, i);
      assert init[i] == e[i];
      assert e[i].0 != e[|e| - 1].0;
    }
  }
}
