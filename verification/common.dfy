/**
 * Concepts shared by both platform controllers: brightness values and their
 * clamp, listener callbacks, the log of notifications they receive, and the
 * multiset of callbacks held by a handle-to-callback registry.
 */
module Brightness {

  /** Lower and upper bound of a brightness fraction. */
  const MIN_BRIGHTNESS: real := 0.0
  const MAX_BRIGHTNESS: real := 1.0

  /** `max(MIN_BRIGHTNESS, min(MAX_BRIGHTNESS, v))`, the clamp both platforms apply before a write. */
  function Clamp(v: real): (r: real)
    ensures MIN_BRIGHTNESS <= r <= MAX_BRIGHTNESS
    ensures MIN_BRIGHTNESS <= v <= MAX_BRIGHTNESS ==> r == v
    ensures v < MIN_BRIGHTNESS ==> r == MIN_BRIGHTNESS
    ensures v > MAX_BRIGHTNESS ==> r == MAX_BRIGHTNESS
  {
    var upper := if MAX_BRIGHTNESS < v then MAX_BRIGHTNESS else v;
    if MIN_BRIGHTNESS < upper then upper else MIN_BRIGHTNESS
  }

  /**
   * A registered `(Double) -> Unit` callback, known only by its identity:
   * two callbacks are equal exactly when they are the same closure.
   */
  datatype Callback = Callback(identity: int)

  /** One invocation `callback(value)`. */
  datatype Notification = Notification(callback: Callback, value: real)

  /** The invocations made by dispatching `v` to the callbacks of `s`, in list order. */
  function Broadcast(s: seq<Callback>, v: real): (log: seq<Notification>)
  {
    if s == [] then [] else Broadcast(s[..|s| - 1], v) + [Notification(s[|s| - 1], v)]
  }

  /** The callbacks invoked by a log of notifications, in order. */
  function Recipients(log: seq<Notification>): (callbacks: seq<Callback>)
  {
    if log == [] then [] else Recipients(log[..|log| - 1]) + [log[|log| - 1].callback]
  }

  /**
   * `delivered` invokes every callback of `registry` as many times as it is
   * registered (so each registration exactly once), nothing else, and always with `v`.
   */
  ghost predicate DeliveredOnce(delivered: seq<Notification>, registry: multiset<Callback>, v: real)
  {
    multiset(Recipients(delivered)) == registry &&
    forall i :: 0 <= i < |delivered| ==> delivered[i].value == v
  }

  /** No handle of `m` other than `h` holds the callback stored under `h`. */
  ghost predicate SoleHandle(m: map<int, Callback>, h: int)
    requires h in m
  {
    forall k :: k in m && k != h ==> m[k] != m[h]
  }

  /** The multiset of callbacks stored in a handle-to-callback registry. */
  ghost function ValueBag(m: map<int, Callback>): (bag: multiset<Callback>)
  {
    BagOf(m, m.Keys)
  }

  /** The multiset of callbacks that `m` stores under the handles `ks`. */
  ghost function BagOf(m: map<int, Callback>, ks: set<int>): (bag: multiset<Callback>)
    requires ks <= m.Keys
    decreases ks
  {
    if ks == {} then multiset{}
    else
      HasElement(ks);
      var k :| k in ks;
      multiset{m[k]} + BagOf(m, ks - {k})
  }

  lemma HasElement(ks: set<int>)
    requires ks != {}
    ensures exists k :: k in ks
  {
    if forall k :: k !in ks {
      assert false;
    }
  }

  lemma RecipientsAppend(log: seq<Notification>, n: Notification)
    ensures Recipients(log + [n]) == Recipients(log) + [n.callback]
  {
  }

  /** Dispatching `v` to a list invokes exactly the list's callbacks, in order, each with `v`. */
  lemma {:induction false} BroadcastRecipients(s: seq<Callback>, v: real)
    ensures |Broadcast(s, v)| == |s|
    ensures Recipients(Broadcast(s, v)) == s
    ensures forall i :: 0 <= i < |s| ==> Broadcast(s, v)[i].value == v
  {
    if s != [] {
      var init := s[..|s| - 1];
      BroadcastRecipients(init, v);
      RecipientsAppend(Broadcast(init, v), Notification(s[|s| - 1], v));
      assert init + [s[|s| - 1]] == s;
    }
  }

  /** The log's recipients line up one-to-one with its entries. */
  lemma {:induction false} RecipientsAt(log: seq<Notification>)
    ensures |Recipients(log)| == |log|
    ensures forall i :: 0 <= i < |log| ==> Recipients(log)[i] == log[i].callback
  {
    if log != [] {
      RecipientsAt(log[..|log| - 1]);
    }
  }

  /** A delivery that is exactly once against `registry` reaches no callback outside it. */
  lemma AbsentNotDelivered(delivered: seq<Notification>, registry: multiset<Callback>, v: real, c: Callback)
    requires DeliveredOnce(delivered, registry, v) && c !in registry
    ensures forall i :: 0 <= i < |delivered| ==> delivered[i].callback != c
  {
    RecipientsAt(delivered);
    forall i | 0 <= i < |delivered|
      ensures delivered[i].callback != c
    {
      assert Recipients(delivered)[i] in multiset(Recipients(delivered));
    }
  }

  /** Dispatching to a list delivers once per list entry: the partner of the dispatch loops. */
  lemma BroadcastDeliversOnce(s: seq<Callback>, v: real)
    ensures DeliveredOnce(Broadcast(s, v), multiset(s), v)
  {
    BroadcastRecipients(s, v);
  }

  /** The registry's multiset does not depend on the order in which its handles are taken apart. */
  lemma {:induction false} BagOfPick(m: map<int, Callback>, ks: set<int>, k: int)
    requires ks <= m.Keys && k in ks
    ensures BagOf(m, ks) == multiset{m[k]} + BagOf(m, ks - {k})
    decreases ks
  {
    HasElement(ks);
    var j :| j in ks && BagOf(m, ks) == multiset{m[j]} + BagOf(m, ks - {j});
    if j != k {
      BagOfPick(m, ks - {j}, k);
      BagOfPick(m, ks - {k}, j);
      assert ks - {j} - {k} == ks - {k} - {j};
    }
  }

  /** Two registries that agree on the handles `ks` hold the same callbacks under them. */
  lemma {:induction false} BagOfAgree(m1: map<int, Callback>, m2: map<int, Callback>, ks: set<int>)
    requires ks <= m1.Keys && ks <= m2.Keys
    requires forall k :: k in ks ==> m1[k] == m2[k]
    ensures BagOf(m1, ks) == BagOf(m2, ks)
    decreases ks
  {
    if ks != {} {
      HasElement(ks);
      var j :| j in ks;
      BagOfPick(m1, ks, j);
      BagOfPick(m2, ks, j);
      BagOfAgree(m1, m2, ks - {j});
    }
  }

  /** A callback is among those stored under `ks` exactly when some handle of `ks` holds it. */
  lemma {:induction false} BagOfHas(m: map<int, Callback>, ks: set<int>, c: Callback)
    requires ks <= m.Keys
    ensures c in BagOf(m, ks) <==> exists k :: k in ks && m[k] == c
    decreases ks
  {
    if ks != {} {
      HasElement(ks);
      var j :| j in ks;
      BagOfPick(m, ks, j);
      BagOfHas(m, ks - {j}, c);
      if exists k :: k in ks && m[k] == c {
        var k :| k in ks && m[k] == c;
        assert k == j || k in ks - {j};
      }
    }
  }

  /** A callback is in the registry's multiset exactly when some handle maps to it. */
  lemma ValueBagHas(m: map<int, Callback>, c: Callback)
    ensures c in ValueBag(m) <==> exists k :: k in m && m[k] == c
  {
    BagOfHas(m, m.Keys, c);
  }

  /** Registering a callback under a fresh handle adds one copy of it to the registry's multiset. */
  lemma ValueBagInsert(m: map<int, Callback>, k: int, c: Callback)
    requires k !in m
    ensures ValueBag(m[k := c]) == ValueBag(m) + multiset{c}
  {
    var grown := m[k := c];
    assert grown.Keys - {k} == m.Keys;
    BagOfPick(grown, grown.Keys, k);
    BagOfAgree(grown, m, m.Keys);
  }

  /** Unregistering a handle removes one copy of its callback from the registry's multiset. */
  lemma ValueBagRemove(m: map<int, Callback>, k: int)
    requires k in m
    ensures m[k] in ValueBag(m)
    ensures ValueBag(m - {k}) == ValueBag(m) - multiset{m[k]}
  {
    var shrunk := m - {k};
    assert shrunk.Keys == m.Keys - {k};
    BagOfPick(m, m.Keys, k);
    BagOfAgree(shrunk, m, shrunk.Keys);
  }
}
