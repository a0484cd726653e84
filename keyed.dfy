/** Ordered key/value lists, as PHP's ordered arrays with string keys are
    used for query parameters, form fields and request bodies. */
module Keyed {
  import opened Tokens

  predicate HasKey<V>(entries: seq<(string, V)>, key: string)
  {
    exists i :: 0 <= i < |entries| && entries[i].0 == key
  }

  /** The value of the first entry with the key, `None` when there is none. */
  function Lookup<V>(entries: seq<(string, V)>, key: string): (r: Option<V>)
    ensures r.Some? <==> HasKey(entries, key)
    decreases |entries|
  {
    if |entries| == 0 then None
    else if entries[0].0 == key then Some(entries[0].1)
    else
      var r := Lookup(entries[1..], key);
      assert r.Some? ==> HasKey(entries, key) by {
        if r.Some? {
          var i :| 0 <= i < |entries[1..]| && entries[1..][i].0 == key;
          assert entries[i + 1].0 == key;
        }
      }
      assert HasKey(entries, key) ==> r.Some? by {
        if HasKey(entries, key) {
          var i :| 0 <= i < |entries| && entries[i].0 == key;
          assert entries[1..][i - 1].0 == key;
        }
      }
      r
  }

  /** The keys, in order. */
  function KeysOf<V>(entries: seq<(string, V)>): (ks: seq<string>)
    ensures |ks| == |entries|
    ensures forall i :: 0 <= i < |entries| ==> ks[i] == entries[i].0
  {
    seq(|entries|, i requires 0 <= i < |entries| => entries[i].0)
  }

  /** Entries before the first one with the key do not affect the lookup. */
  lemma {:induction false} LookupAppend<V>(front: seq<(string, V)>, back: seq<(string, V)>, key: string)
    requires !HasKey(front, key)
    ensures Lookup(front + back, key) == Lookup(back, key)
    decreases |front|
  {
    if |front| > 0 {
      assert (front + back)[0] == front[0];
      assert front[0].0 != key;
      assert (front + back)[1..] == front[1..] + back;
      assert !HasKey(front[1..], key) by {
        forall i | 0 <= i < |front[1..]|
          ensures front[1..][i].0 != key
        {
          assert front[1..][i] == front[i + 1];
        }
      }
      LookupAppend(front[1..], back, key);
    } else {
      assert front + back == back;
    }
  }

  /** The key is absent from a concatenation of lists without it. */
  lemma NoKeyAppend<V>(front: seq<(string, V)>, back: seq<(string, V)>, key: string)
    requires !HasKey(front, key) && !HasKey(back, key)
    ensures !HasKey(front + back, key)
  {
    forall i | 0 <= i < |front + back|
      ensures (front + back)[i].0 != key
    {
      if i < |front| {
        assert (front + back)[i] == front[i];
      } else {
        assert (front + back)[i] == back[i - |front|];
      }
    }
  }

  lemma KeysOfAppend<V>(front: seq<(string, V)>, back: seq<(string, V)>)
    ensures KeysOf(front + back) == KeysOf(front) + KeysOf(back)
  {
  }

  /** A lookup that succeeds in the front list ignores the back. */
  lemma {:induction false} LookupFirst<V>(front: seq<(string, V)>, back: seq<(string, V)>, key: string)
    requires !HasKey(back, key) || HasKey(front, key)
    ensures Lookup(front + back, key) == Lookup(front, key)
    decreases |front|
  {
    if |front| == 0 {
      assert front + back == back;
    } else {
      assert (front + back)[0] == front[0];
      assert (front + back)[1..] == front[1..] + back;
      if front[0].0 != key {
        assert !HasKey(back, key) || HasKey(front[1..], key) by {
          if HasKey(front, key) {
            var i :| 0 <= i < |front| && front[i].0 == key;
            assert front[1..][i - 1].0 == key;
          }
        }
        LookupFirst(front[1..], back, key);
      }
    }
  }

  /** The lookup finds the entry at `i` when no earlier entry has its key. */
  lemma {:induction false} LookupAt<V>(entries: seq<(string, V)>, i: nat)
    requires i < |entries|
    requires forall j :: 0 <= j < i ==> entries[j].0 != entries[i].0
    ensures Lookup(entries, entries[i].0) == Some(entries[i].1)
    decreases i
  {
    if i > 0 {
      var rest := entries[1..];
      assert rest[i - 1] == entries[i];
      assert forall j :: 0 <= j < i - 1 ==> rest[j] == entries[j + 1];
      LookupAt(rest, i - 1);
    }
  }
}
