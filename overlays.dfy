/**
 * Writing a sequence of key/value pairs into a dictionary one after the other,
 * as `d[k] = v` does in a loop: a later write to the same key overwrites an
 * earlier one. The state store, the platform's budgets and the flattened
 * insight rows are all built this way.
 */
module Overlays {

  /** The keys written by `ws`. */
  function WrittenKeys<K, V>(ws: seq<(K, V)>): set<K> {
    set i | 0 <= i < |ws| :: ws[i].0
  }

  /** `ws[i]` is the last write to its key. */
  predicate IsLastWrite<K(==), V>(ws: seq<(K, V)>, i: int) {
    0 <= i < |ws| && forall j :: i < j < |ws| ==> ws[j].0 != ws[i].0
  }

  /** `m` after performing the writes of `ws` in order. */
  function Overlay<K, V>(m: map<K, V>, ws: seq<(K, V)>): map<K, V> {
    if ws == [] then m else Overlay(m, ws[..|ws| - 1])[ws[|ws| - 1].0 := ws[|ws| - 1].1]
  }

  /**
   * The written keys are added to `m`'s keys, every key not written keeps its
   * value, and every written key holds the value of its last write.
   */
  lemma {:induction false} OverlayFacts<K, V>(m: map<K, V>, ws: seq<(K, V)>)
    ensures Overlay(m, ws).Keys == m.Keys + WrittenKeys(ws)
    ensures forall k :: k in m && k !in WrittenKeys(ws) ==> Overlay(m, ws)[k] == m[k]
    ensures forall i :: IsLastWrite(ws, i) ==> Overlay(m, ws)[ws[i].0] == ws[i].1
    decreases |ws|
  {
    if ws != [] {
      OverlayFacts(m, ws[..|ws| - 1]);
      WrittenKeysSnoc(ws);
      LastWritesOfInit(ws);
    }
  }

  lemma WrittenKeysSnoc<K, V>(ws: seq<(K, V)>)
    requires ws != []
    ensures WrittenKeys(ws) == WrittenKeys(ws[..|ws| - 1]) + {ws[|ws| - 1].0}
  {
    var init := ws[..|ws| - 1];
    forall k | k in WrittenKeys(ws) ensures k in WrittenKeys(init) + {ws[|ws| - 1].0} {
      var i :| 0 <= i < |ws| && ws[i].0 == k;
      if i < |ws| - 1 { assert init[i] == ws[i]; }
    }
    forall k | k in WrittenKeys(init) ensures k in WrittenKeys(ws) {
      var i :| 0 <= i < |init| && init[i].0 == k;
      assert ws[i] == init[i];
    }
  }

  lemma LastWritesOfInit<K, V>(ws: seq<(K, V)>)
    requires ws != []
    ensures forall i :: IsLastWrite(ws, i) && i < |ws| - 1 ==>
      IsLastWrite(ws[..|ws| - 1], i) && ws[i].0 != ws[|ws| - 1].0 && ws[..|ws| - 1][i] == ws[i]
  {
  }

  /** Writing `a` and then `b` is writing `a + b`. */
  lemma {:induction false} OverlayAppend<K, V>(m: map<K, V>, a: seq<(K, V)>, b: seq<(K, V)>)
    ensures Overlay(m, a + b) == Overlay(Overlay(m, a), b)
    decreases |b|
  {
    if b == [] {
      assert a + b == a;
    } else {
      var init := b[..|b| - 1];
      assert (a + b)[..|a + b| - 1] == a + init;
      assert (a + b)[|a + b| - 1] == b[|b| - 1];
      OverlayAppend(m, a, init);
    }
  }

  /** When every write agrees with `goal`, every written key ends at its `goal` value. */
  lemma {:induction false} OverlayToward<K, V>(m: map<K, V>, ws: seq<(K, V)>, goal: map<K, V>)
    requires forall i :: 0 <= i < |ws| ==> ws[i].0 in goal && ws[i].1 == goal[ws[i].0]
    ensures forall k :: k in WrittenKeys(ws) ==>
      k in goal && k in Overlay(m, ws) && Overlay(m, ws)[k] == goal[k]
    decreases |ws|
  {
    if ws != [] {
      var init := ws[..|ws| - 1];
      forall i | 0 <= i < |init| ensures init[i].0 in goal && init[i].1 == goal[init[i].0] {
        assert init[i] == ws[i];
      }
      OverlayToward(m, init, goal);
      forall k | k in WrittenKeys(ws)
        ensures k in goal && k in Overlay(m, ws) && Overlay(m, ws)[k] == goal[k]
      {
        var i :| 0 <= i < |ws| && ws[i].0 == k;
        if k != ws[|ws| - 1].0 {
          assert i < |ws| - 1 && init[i] == ws[i];
          assert k in WrittenKeys(init);
        }
      }
    }
  }
}
