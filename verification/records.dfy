/** A `Record<string, string>` filled by assigning one entry after another,
    starting from `{}`: a later assignment to the same key overwrites an earlier one. */
module Records {

  datatype Entry = Entry(key: string, value: string)

  /** Assigning to this key on a plain object calls the inherited `Object.prototype.__proto__`
      setter, which ignores a string value: no entry is created. */
  const ProtoKey := "__proto__"

  ghost function KeysOf(entries: seq<Entry>): set<string> {
    set e | e in entries :: e.key
  }

  /** Entry `i` is the last one in `entries` that assigns its key. */
  ghost predicate LastAssignment(entries: seq<Entry>, i: int)
    requires 0 <= i < |entries|
  {
    forall j :: i < j < |entries| ==> entries[j].key != entries[i].key
  }

  ghost predicate DistinctKeys(entries: seq<Entry>) {
    forall i, j :: 0 <= i < j < |entries| ==> entries[i].key != entries[j].key
  }

  /** The object left by `obj[e.key] = e.value` for every entry, in order. */
  function Assign(entries: seq<Entry>): (obj: map<string, string>)
    ensures obj.Keys == KeysOf(entries) - {ProtoKey}
    decreases |entries|
  {
    if |entries| == 0 then map[]
    else
      var init := entries[..|entries| - 1];
      var last := entries[|entries| - 1];
      assert entries == init + [last];
      if last.key == ProtoKey then Assign(init)
      else Assign(init)[last.key := last.value]
  }

  /** One assignment step: the object after all entries is the object after all but the last,
      updated by the last unless its key is `__proto__`. */
  lemma AssignStep(entries: seq<Entry>)
    requires |entries| > 0
    ensures var last := entries[|entries| - 1];
      Assign(entries) == if last.key == ProtoKey then Assign(entries[..|entries| - 1])
                         else Assign(entries[..|entries| - 1])[last.key := last.value]
  {
  }

  /** No assignment ever creates a `__proto__` entry. */
  lemma AssignOmitsProto(entries: seq<Entry>)
    ensures ProtoKey !in Assign(entries)
  {
  }

  /** An assignment to another key leaves key `k` as it was. */
  lemma AssignOtherKey(entries: seq<Entry>, k: string)
    requires |entries| > 0 && entries[|entries| - 1].key != k
    ensures var before := Assign(entries[..|entries| - 1]);
      (k in Assign(entries) <==> k in before) && (k in before ==> Assign(entries)[k] == before[k])
  {
    AssignStep(entries);
  }

  /** The final assignment to an ordinary key sticks. */
  lemma AssignLastKey(entries: seq<Entry>)
    requires |entries| > 0 && entries[|entries| - 1].key != ProtoKey
    ensures entries[|entries| - 1].key in Assign(entries)
    ensures Assign(entries)[entries[|entries| - 1].key] == entries[|entries| - 1].value
  {
    AssignStep(entries);
  }

  /** The last assignment to a key is the value the key ends up with, unless the key is
      `__proto__`, which never gets an entry. */
  lemma {:induction false} AssignLastWins(entries: seq<Entry>, i: int)
    requires 0 <= i < |entries|
    requires LastAssignment(entries, i)
    ensures entries[i].key in Assign(entries) <==> entries[i].key != ProtoKey
    ensures entries[i].key != ProtoKey ==> Assign(entries)[entries[i].key] == entries[i].value
    decreases |entries|
  {
    var n := |entries|;
    var k := entries[i].key;
    if k == ProtoKey {
      AssignOmitsProto(entries);
    } else if i == n - 1 {
      AssignLastKey(entries);
    } else {
      var init := entries[..n - 1];
      assert entries[i] == init[i];
      assert LastAssignment(init, i) by {
        forall j | i < j < |init| ensures init[j].key != init[i].key {
          assert init[j] == entries[j];
        }
      }
      AssignLastWins(init, i);
      AssignOtherKey(entries, k);
    }
  }

  /** Conversely, every value in the object comes from the last assignment to its key. */
  lemma {:induction false} AssignValueIsLastAssignment(entries: seq<Entry>, k: string)
    requires k in Assign(entries)
    ensures exists i :: 0 <= i < |entries| && entries[i].key == k && LastAssignment(entries, i)
                        && Assign(entries)[k] == entries[i].value
    decreases |entries|
  {
    var n := |entries|;
    var last := entries[n - 1];
    if last.key == k {
      assert Assign(entries)[k] == entries[n - 1].value;
      assert LastAssignment(entries, n - 1);
    } else {
      var init := entries[..n - 1];
      AssignValueIsLastAssignment(init, k);
      var i :| 0 <= i < |init| && init[i].key == k && LastAssignment(init, i) && Assign(init)[k] == init[i].value;
      assert entries[i] == init[i];
      forall j | i < j < n ensures entries[j].key != entries[i].key {
        if j < n - 1 {
          assert entries[j] == init[j];
        }
      }
      assert Assign(entries)[k] == entries[i].value;
    }
  }

  /** Distinct keys are as many as the entries. */
  lemma {:induction false} KeysOfDistinctSize(entries: seq<Entry>)
    requires DistinctKeys(entries)
    ensures |KeysOf(entries)| == |entries|
    decreases |entries|
  {
    var n := |entries|;
    if n > 0 {
      var init := entries[..n - 1];
      var last := entries[n - 1];
      assert entries == init + [last];
      assert DistinctKeys(init);
      KeysOfDistinctSize(init);
      assert last.key !in KeysOf(init) by {
        forall e | e in init ensures e.key != last.key {
          var i :| 0 <= i < |init| && init[i] == e;
        }
      }
      assert KeysOf(entries) == KeysOf(init) + {last.key};
    }
  }

  lemma RemoveOneSize(keys: set<string>, x: string)
    ensures |keys - {x}| == |keys| - (if x in keys then 1 else 0)
  {
    if x in keys {
      assert keys == (keys - {x}) + {x};
    } else {
      assert keys - {x} == keys;
    }
  }

  /** With pairwise distinct keys nothing is overwritten: one entry per assignment,
      except that an assignment to `__proto__` leaves none. */
  lemma AssignDistinctSize(entries: seq<Entry>)
    requires DistinctKeys(entries)
    ensures |Assign(entries)| == |entries| - (if ProtoKey in KeysOf(entries) then 1 else 0)
  {
    KeysOfDistinctSize(entries);
    RemoveOneSize(KeysOf(entries), ProtoKey);
    assert |Assign(entries)| == |Assign(entries).Keys|;
  }
}
