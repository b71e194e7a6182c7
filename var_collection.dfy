/** VariableCollection: a concurrent dictionary of named values in which Add
    never overwrites (TryAdd), the indexer setter always does, and the
    indexer getter reads null for a missing key. */
module VarCollection {
  import opened Variables

  /** The dictionary after TryAdd(k, v): only an absent key is stored. */
  function Added(m: map<string, Value>, k: string, v: Value): map<string, Value> {
    if k in m then m else m[k := v]
  }

  /** What the indexer getter reads: the stored value, or null when TryGetValue fails. */
  function Read(m: map<string, Value>, k: string): Value {
    if k in m then m[k] else Null
  }

  class VariableCollection {
    var variables: map<string, Value>

    constructor ()
      ensures variables == map[]
    {
      variables := map[];
    }

    method Add(key: string, value: Value)
      modifies this
      ensures variables == Added(old(variables), key, value)
    {
      if key !in variables {
        variables := variables[key := value];
      }
    }

    /** The indexer getter. */
    method Get(key: string) returns (value: Value)
      ensures key in variables ==> value == variables[key]
      ensures key !in variables ==> value == Null
    {
      value := Null;
      if key in variables {
        value := variables[key];
      }
    }

    /** The indexer setter. */
    method Set(key: string, value: Value)
      modifies this
      ensures variables == old(variables)[key := value]
    {
      variables := variables[key := value];
    }
  }

  /** Add never overwrites: of two Adds of one key the first wins, and the
      second leaves the dictionary as it was. */
  lemma FirstAddWins(m: map<string, Value>, k: string, v1: Value, v2: Value)
    ensures Added(Added(m, k, v1), k, v2) == Added(m, k, v1)
    ensures Read(Added(Added(m, k, v1), k, v2), k) == if k in m then m[k] else v1
  {
  }

  /** After Add on an absent key, the getter reads the added value; every
      other key reads as before. */
  lemma AddThenRead(m: map<string, Value>, k: string, v: Value, other: string)
    requires k !in m
    ensures Read(Added(m, k, v), k) == v
    ensures other != k ==> Read(Added(m, k, v), other) == Read(m, other)
  {
  }

  /** The setter overwrites unconditionally and leaves every other key alone. */
  lemma SetThenRead(m: map<string, Value>, k: string, v: Value, other: string)
    ensures Read(m[k := v], k) == v
    ensures other != k ==> Read(m[k := v], other) == Read(m, other)
  {
  }

  /** The getter cannot tell a stored null from a missing key. */
  lemma StoredNullReadsAsMissing(m: map<string, Value>, k: string)
    ensures Read(m[k := Null], k) == Read(m - {k}, k) == Null
  {
  }
}
