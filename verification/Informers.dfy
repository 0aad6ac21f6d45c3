/** What an informer has yet to show: a number that falls with every delivery that changes what the controllers see, and
    that no write of the operator raises. */
module Informers {
  import opened Base
  import opened Api
  import opened ApiServer

  /** Versions of one object that no selector and no rendering tells apart. */
  ghost predicate Interchangeable<S, T>(a: Object<S, T>, b: Object<S, T>) {
    a.meta.key == b.meta.key && a.meta.labels == b.meta.labels && a.spec == b.spec
  }

  ghost predicate SameView<S, T>(a: map<Key, Object<S, T>>, b: map<Key, Object<S, T>>) {
    a.Keys == b.Keys && forall k :: k in a ==> Interchangeable(a[k], b[k])
  }

  /** Stored, or deleted with the deletion not yet shown. */
  ghost predicate Tracked<S, T>(st: Store<S, T>, k: Key) {
    k in st.stored || k in st.cache
  }

  /** The informer may still show version r. */
  ghost predicate Ahead<S, T>(st: Store<S, T>, r: nat) {
    && r in st.log && Tracked(st, st.log[r].meta.key)
    && (st.log[r].meta.key in st.cache ==> st.cache[st.log[r].meta.key].meta.resourceVersion < r)
  }

  ghost predicate Final<S, T>(st: Store<S, T>, o: Object<S, T>) {
    o.meta.key in st.stored && Interchangeable(st.stored[o.meta.key], o)
  }

  ghost function Undelivered<S, T>(st: Store<S, T>): set<nat> {
    set r | r in st.log && Ahead(st, r)
  }

  /** Undelivered versions that differ from what is stored. */
  ghost function Passing<S, T>(st: Store<S, T>): set<nat> {
    set r | r in st.log && Ahead(st, r) && !Final(st, st.log[r])
  }

  /** Objects the informer shows wrongly. */
  ghost function Astray<S, T>(st: Store<S, T>): set<Key> {
    set k | k in st.stored.Keys + st.cache.Keys && !(k in st.cache && Final(st, st.cache[k]))
  }

  ghost function Unseen<S, T>(st: Store<S, T>): nat {
    2 * |Passing(st)| + |Astray(st)|
  }

  lemma QueueUnseen<S, T>(a: Store<S, T>, b: Store<S, T>)
    requires b == a.(queue := b.queue)
    ensures Unseen(b) == Unseen(a) && Undelivered(b) == Undelivered(a)
  {
    assert forall r :: Ahead(b, r) <==> Ahead(a, r);
    assert forall o: Object<S, T> :: Final(b, o) <==> Final(a, o);
    assert Passing(b) == Passing(a);
    assert Astray(b) == Astray(a);
  }

  ghost predicate Deliverable<S, T>(st: Store<S, T>, r: nat) {
    r in st.log && Ahead(st, r)
  }

  lemma DeliveryTrades<S, T>(st: Store<S, T>, clock: nat, r: nat)
    requires Logged(st, clock) && Deliverable(st, r)
    ensures var t := Deliver(st, st.log[r]);
            && |t.queue| + |Undelivered(t)| <= |st.queue| + |Undelivered(st)|
            && Passing(t) <= Passing(st) && r !in Passing(t)
  {
    var o := st.log[r];
    var k, t := o.meta.key, Deliver(st, o);
    assert forall i :: Ahead(t, i) ==> Ahead(st, i);
    assert !Ahead(t, r);
    assert forall p: Object<S, T> :: Final(t, p) <==> Final(st, p);
    SmallerSubset(Undelivered(t), Undelivered(st), r);
    assert |st.queue + {k}| <= |st.queue| + 1;
  }

  lemma DeliveryShowsKey<S, T>(st: Store<S, T>, clock: nat, r: nat)
    requires Logged(st, clock) && Deliverable(st, r)
    ensures var k, t := st.log[r].meta.key, Deliver(st, st.log[r]);
            && Astray(t) <= Astray(st) + {k}
            && (Final(st, st.log[r]) ==> k !in Astray(t))
            && (k in st.cache && Interchangeable(st.cache[k], st.log[r]) ==> Astray(t) == Astray(st))
            && (Final(st, st.log[r]) && !SameView(st.cache, t.cache) ==> k in Astray(st))
  {
    var o := st.log[r];
    var t := Deliver(st, o);
    assert forall p: Object<S, T> :: Final(t, p) <==> Final(st, p);
  }

  /** A delivery trades an undelivered version for a queued key; if it changes the view it shows something for good. */
  lemma DeliveryShows<S, T>(st: Store<S, T>, clock: nat, r: nat)
    requires Logged(st, clock) && Deliverable(st, r)
    ensures var t := Deliver(st, st.log[r]);
            && |t.queue| + |Undelivered(t)| <= |st.queue| + |Undelivered(st)|
            && Unseen(t) <= Unseen(st)
            && (!SameView(st.cache, t.cache) ==> Unseen(t) < Unseen(st))
  {
    var o := st.log[r];
    var k, t := o.meta.key, Deliver(st, o);
    DeliveryTrades(st, clock, r);
    DeliveryShowsKey(st, clock, r);
    var final := Final(st, o);
    assert !final ==> r in Passing(st);
    hide Undelivered, Passing, Astray, SameView, Logged, Final, Deliver;
    SubsetSize(Passing(t), Passing(st));
    if final {
      SubsetSize(Astray(t), Astray(st));
      if k in Astray(st) {
        SmallerSubset(Astray(t), Astray(st), k);
      }
    } else {
      SmallerSubset(Passing(t), Passing(st), r);
      SubsetSize(Astray(t), Astray(st) + {k});
      assert |Astray(st) + {k}| <= |Astray(st)| + 1;
    }
  }

  lemma DropForgets<S, T>(st: Store<S, T>, k: Key)
    requires k !in st.stored
    ensures var t := Drop(st, k);
            && Undelivered(t) <= Undelivered(st) && Passing(t) <= Passing(st)
            && Astray(t) <= Astray(st) && k !in Astray(t)
  {
    var t := Drop(st, k);
    assert forall i :: Ahead(t, i) ==> Ahead(st, i);
    assert forall p: Object<S, T> :: Final(t, p) <==> Final(st, p);
    hide Ahead, Final;
  }

  lemma DropShows<S, T>(st: Store<S, T>, clock: nat, k: Key)
    requires Logged(st, clock) && k !in st.stored && k in st.cache
    ensures Unseen(Drop(st, k)) < Unseen(st)
    ensures |Drop(st, k).queue| + |Undelivered(Drop(st, k))| <= |st.queue| + |Undelivered(st)| + 1
  {
    var t := Drop(st, k);
    DropForgets(st, k);
    assert k in Astray(st);
    hide Undelivered, Passing, Astray, Logged;
    SubsetSize(Undelivered(t), Undelivered(st));
    SubsetSize(Passing(t), Passing(st));
    SmallerSubset(Astray(t), Astray(st), k);
    assert |st.queue + {k}| <= |st.queue| + 1;
  }

  lemma WriteKeepsFinal<S, T>(st: Store<S, T>, next: Object<S, T>, r: nat, o: Object<S, T>)
    requires next.meta.key in st.stored && Interchangeable(st.stored[next.meta.key], next)
    ensures Final(StoreAt(st, next, r), o) <==> Final(st, o)
    ensures Final(StoreAt(st, next, r), Stamped(next, r))
  {
  }

  lemma WriteKeepsAhead<S, T>(st: Store<S, T>, next: Object<S, T>, clock: nat, i: nat)
    requires Logged(st, clock) && next.meta.key in st.stored && i != clock + 1
    ensures var t := StoreAt(st, next, clock + 1);
            && (i in t.log <==> i in st.log) && (i in st.log ==> t.log[i] == st.log[i])
            && (Ahead(t, i) <==> Ahead(st, i))
  {
  }

  /** A write that keeps labels and spec leaves nothing new to see, only one more version to deliver. */
  lemma WriteShowsNothing<S, T>(st: Store<S, T>, next: Object<S, T>, clock: nat)
    requires Logged(st, clock)
    requires next.meta.key in st.stored && Interchangeable(st.stored[next.meta.key], next)
    ensures var t := StoreAt(st, next, clock + 1);
            && Unseen(t) == Unseen(st) && |Undelivered(t)| <= |Undelivered(st)| + 1
  {
    var r := clock + 1;
    var t := StoreAt(st, next, r);
    assert r !in st.log && t.cache == st.cache && t.stored.Keys == st.stored.Keys && t.log[r] == Stamped(next, r);
    forall o: Object<S, T> ensures Final(t, o) <==> Final(st, o) {
      WriteKeepsFinal(st, next, r, o);
    }
    WriteKeepsFinal(st, next, r, next);
    forall i: nat | i != r
      ensures i in t.log <==> i in st.log
      ensures i in st.log ==> t.log[i] == st.log[i]
      ensures Ahead(t, i) <==> Ahead(st, i)
    {
      WriteKeepsAhead(st, next, clock, i);
    }
    hide Interchangeable, Final, StoreAt, Ahead, Logged;
    assert Passing(t) == Passing(st);
    assert Astray(t) == Astray(st);
    SubsetSize(Undelivered(t), Undelivered(st) + {r});
    assert |Undelivered(st) + {r}| <= |Undelivered(st)| + 1;
  }
}
