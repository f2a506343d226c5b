/**
 * The write-if-absent batch loaders writeForexToLedger, writeBankToLedger and
 * writeCustomerToLedger, as one specification over a batch of records: each
 * record is looked up under its key and written when the key is absent; the
 * batch stops at the first key already present (a duplicate error) or at the
 * first write the store refuses (its error text, verbatim).
 */
module Loader {
  import opened Wrappers
  import opened Domain

  /** The response of a batch and the ledger after it. `faults` maps each key
      whose PutState fails to the error text the store returns. */
  function Load(m: State, faults: map<string, string>, records: seq<Value>): (State, Response)
    decreases |records|
  {
    if records == [] then (m, Success(Nil))
    else
      var k := KeyOf(records[0]);
      if k in m then (m, Error(DuplicateMessage(records[0])))
      else if k in faults then (m, Error(faults[k]))
      else Load(m[k := records[0]], faults, records[1..])
  }

  /** The keys of a batch, in order. */
  function Keys(records: seq<Value>): (ks: seq<string>)
    ensures |ks| == |records|
    ensures forall i :: 0 <= i < |records| ==> ks[i] == KeyOf(records[i])
  {
    if records == [] then [] else [KeyOf(records[0])] + Keys(records[1..])
  }

  /** Every key of the batch is absent from the ledger, writable, and used once. */
  ghost predicate Insertable(m: State, faults: map<string, string>, records: seq<Value>)
  {
    var ks := Keys(records);
    && (forall i :: 0 <= i < |ks| ==> ks[i] !in m && ks[i] !in faults)
    && (forall i, j :: 0 <= i < j < |ks| ==> ks[i] != ks[j])
  }

  /**
   * A one-record batch, as the create handlers issue: the duplicate error when
   * the key is taken, the store's error when it refuses the key, and otherwise
   * the record stored under its key with success.
   */
  lemma LoadSingle(m: State, faults: map<string, string>, v: Value)
    ensures Load(m, faults, [v])
            == if KeyOf(v) in m then (m, Error(DuplicateMessage(v)))
               else if KeyOf(v) in faults then (m, Error(faults[KeyOf(v)]))
               else (m[KeyOf(v) := v], Success(Nil))
  {
    assert [v][0] == v;
    assert [v][1..] == [];
  }

  /** A loader only ever adds keys: every record already on the ledger survives unchanged. */
  lemma {:induction false} LoadNeverOverwrites(m: State, faults: map<string, string>, records: seq<Value>)
    ensures forall k :: k in m ==> k in Load(m, faults, records).0 && Load(m, faults, records).0[k] == m[k]
    decreases |records|
  {
    if records != [] {
      var k := KeyOf(records[0]);
      if k !in m && k !in faults {
        LoadNeverOverwrites(m[k := records[0]], faults, records[1..]);
      }
    }
  }

  /** Loading a batch in two parts: the second part runs only if the first succeeded. */
  lemma {:induction false} LoadAppend(m: State, faults: map<string, string>, a: seq<Value>, b: seq<Value>)
    ensures Load(m, faults, a + b) ==
              if Load(m, faults, a).1.Success? then Load(Load(m, faults, a).0, faults, b)
              else Load(m, faults, a)
    decreases |a|
  {
    if a == [] {
      assert a + b == b;
    } else {
      assert (a + b)[0] == a[0];
      assert (a + b)[1..] == a[1..] + b;
      var k := KeyOf(a[0]);
      if k !in m && k !in faults {
        LoadAppend(m[k := a[0]], faults, a[1..], b);
      }
    }
  }

  /** A batch succeeds exactly when it is insertable. */
  lemma {:induction false} LoadSucceedsIff(m: State, faults: map<string, string>, records: seq<Value>)
    ensures Load(m, faults, records).1.Success? <==> Insertable(m, faults, records)
    decreases |records|
  {
    if records != [] {
      var r, rest := records[0], records[1..];
      var k := KeyOf(r);
      var ks, kr := Keys(records), Keys(rest);
      assert forall i :: 0 <= i < |kr| ==> kr[i] == ks[i + 1];
      if k in m || k in faults {
        assert ks[0] == k;
      } else {
        var m1 := m[k := r];
        LoadSucceedsIff(m1, faults, rest);
        if Insertable(m, faults, records) {
          forall i | 0 <= i < |kr| ensures kr[i] !in m1 {
            assert ks[0] != ks[i + 1];
          }
        } else if Insertable(m1, faults, rest) {
          forall i, j | 0 <= i < j < |ks| ensures ks[i] != ks[j] {
            if i == 0 { assert kr[j - 1] !in m1; } else { assert kr[i - 1] != kr[j - 1]; }
          }
          forall i | 0 <= i < |ks| ensures ks[i] !in m && ks[i] !in faults {
            if i > 0 { assert kr[i - 1] !in m1; }
          }
        }
      }
    }
  }

  /**
   * A successful batch adds exactly its own keys, stores every record under its
   * own key, and keeps everything that was there.
   */
  lemma {:induction false} LoadInsertsAll(m: State, faults: map<string, string>, records: seq<Value>)
    requires Insertable(m, faults, records)
    ensures Load(m, faults, records).1 == Success(Nil)
    ensures forall k :: k in Load(m, faults, records).0 <==> k in m || k in Keys(records)
    ensures forall i :: 0 <= i < |records| ==> Load(m, faults, records).0[KeyOf(records[i])] == records[i]
    ensures forall k :: k in m ==> Load(m, faults, records).0[k] == m[k]
    decreases |records|
  {
    LoadNeverOverwrites(m, faults, records);
    if records != [] {
      var r, rest := records[0], records[1..];
      var m1 := m[KeyOf(r) := r];
      InsertableRest(m, faults, records);
      LoadInsertsAll(m1, faults, rest);
      LoadNeverOverwrites(m1, faults, rest);
      var m' := Load(m, faults, records).0;
      forall i | 0 <= i < |records| ensures m'[KeyOf(records[i])] == records[i] {
        if i > 0 { assert KeyOf(records[i]) == KeyOf(rest[i - 1]); }
      }
    }
  }

  /** Once the first record of an insertable batch is stored, the rest of the batch is insertable. */
  lemma InsertableRest(m: State, faults: map<string, string>, records: seq<Value>)
    requires records != [] && Insertable(m, faults, records)
    ensures KeyOf(records[0]) !in m && KeyOf(records[0]) !in faults
    ensures Keys(records) == [KeyOf(records[0])] + Keys(records[1..])
    ensures Insertable(m[KeyOf(records[0]) := records[0]], faults, records[1..])
  {
    var k := KeyOf(records[0]);
    var ks, kr := Keys(records), Keys(records[1..]);
    assert ks == [k] + kr;
    assert forall i :: 0 <= i < |kr| ==> kr[i] == ks[i + 1];
    forall i | 0 <= i < |kr| ensures kr[i] !in m[k := records[0]] {
      assert ks[0] != ks[i + 1];
    }
  }

  /**
   * The batch stops at record j when every earlier record went in: a taken key
   * gives the duplicate error (the stored record is kept), a refused write gives
   * the store's error, and no later record is attempted.
   */
  lemma LoadStopsAt(m: State, faults: map<string, string>, records: seq<Value>, j: nat)
    requires j < |records|
    requires Load(m, faults, records[..j]).1.Success?
    ensures var mid := Load(m, faults, records[..j]).0;
            var k := KeyOf(records[j]);
            && (k in mid ==> Load(m, faults, records) == (mid, Error(DuplicateMessage(records[j]))))
            && (k !in mid && k in faults ==> Load(m, faults, records) == (mid, Error(faults[k])))
  {
    assert records == records[..j] + records[j..];
    LoadAppend(m, faults, records[..j], records[j..]);
    assert records[j..][0] == records[j];
  }

  /** Loading the same batch again changes nothing and reports its first key as a duplicate. */
  lemma LoadTwice(m: State, faults: map<string, string>, records: seq<Value>)
    requires records != []
    requires Load(m, faults, records).1.Success?
    ensures var m' := Load(m, faults, records).0;
            Load(m', faults, records) == (m', Error(DuplicateMessage(records[0])))
  {
    var k := KeyOf(records[0]);
    assert k !in m && k !in faults;
    LoadNeverOverwrites(m[k := records[0]], faults, records[1..]);
  }

  /**
   * After a batch, its first key is settled: it holds a record, or the store
   * refuses it. Any later load of a batch starting with that record is then a no-op.
   */
  lemma LoadSettlesFirstKey(m: State, faults: map<string, string>, records: seq<Value>)
    requires records != []
    ensures KeyOf(records[0]) in Load(m, faults, records).0 || KeyOf(records[0]) in faults
  {
    var k := KeyOf(records[0]);
    if k !in m && k !in faults {
      LoadNeverOverwrites(m[k := records[0]], faults, records[1..]);
    }
  }

  /** Re-running a batch on its own result leaves the ledger as the first run left it. */
  lemma LoadIdempotent(m: State, faults: map<string, string>, records: seq<Value>)
    ensures var m' := Load(m, faults, records).0;
            Load(m', faults, records).0 == m'
  {
    if records != [] {
      LoadSettlesFirstKey(m, faults, records);
    }
  }
}
