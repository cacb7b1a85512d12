/** The Black Duck project configuration: a name-to-id map that users fill
    in, and its inverse, built by a loop when the class body runs. */
module ProjectConfig {

  /** The entries of the name-to-id map, in insertion order. The shipped
      configuration is empty. */
  const PROJECT_NAME_ID_MAPPING: seq<(string, string)> := []

  /** The inverse after visiting the given entries: each entry maps its id
      to its name, a later entry overwriting an earlier one with the same
      id. */
  function Inverse(entries: seq<(string, string)>): (r: map<string, string>)
    ensures r.Keys == set i | 0 <= i < |entries| :: entries[i].1
  {
    if entries == [] then map[]
    else
      var last := entries[|entries| - 1];
      var front := entries[..|entries| - 1];
      assert forall i :: 0 <= i < |entries| - 1 ==> front[i] == entries[i];
      Inverse(front)[last.1 := last.0]
  }

  /** Every id maps back to a name that had that id. */
  lemma {:induction false} InverseSound(entries: seq<(string, string)>, id: string)
    requires id in Inverse(entries)
    ensures exists i :: 0 <= i < |entries| && entries[i] == (Inverse(entries)[id], id)
  {
    var last := entries[|entries| - 1];
    var front := entries[..|entries| - 1];
    if last.1 != id {
      InverseSound(front, id);
      var i :| 0 <= i < |front| && front[i] == (Inverse(front)[id], id);
      assert entries[i] == front[i];
    } else {
      assert entries[|entries| - 1] == (Inverse(entries)[id], id);
    }
  }

  /** When several names share an id, the one visited last wins. */
  lemma {:induction false} InverseLastWins(entries: seq<(string, string)>, i: nat)
    requires i < |entries|
    requires forall j :: i < j < |entries| ==> entries[j].1 != entries[i].1
    ensures Inverse(entries)[entries[i].1] == entries[i].0
  {
    var front := entries[..|entries| - 1];
    if i < |entries| - 1 {
      assert front[i] == entries[i];
      assert forall j :: i < j < |front| ==> front[j] == entries[j];
      InverseLastWins(front, i);
    }
  }

  /** The loop that fills `PROJECT_ID_NAME_MAPPING`, entry by entry. */
  method InvertMapping(entries: seq<(string, string)>) returns (inverse: map<string, string>)
    ensures inverse == Inverse(entries)
  {
    inverse := map[];
    for i := 0 to |entries|
      invariant inverse == Inverse(entries[..i])
    {
      assert entries[..i + 1][..i] == entries[..i];
      var (name, id) := entries[i];
      inverse := inverse[id := name];
    }
    assert entries[..|entries|] == entries;
  }

  /** The shipped configuration has no projects, so no inverse entries. */
  method ShippedInverse() returns (inverse: map<string, string>)
    ensures inverse == map[]
  {
    inverse := InvertMapping(PROJECT_NAME_ID_MAPPING);
  }
}
