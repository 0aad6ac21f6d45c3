/** The API server as the controllers see it: versioned objects, optimistic concurrency, informer caches, work queues. */
module ApiServer {
  import opened Base
  import opened Api

  const TOUCH := "monitoring.gaiser.bayern/module-updated"

  /** The objects of one kind. `stored` is the server's own copy; `cache` is what the shared informer has seen and
      every Get and List returns; `log` holds every version ever stored, by resource version; `queue` is the work
      queue of the kind's controller. */
  datatype Store<S, T> = Store(
    stored: map<Key, Object<S, T>>,
    cache: map<Key, Object<S, T>>,
    log: map<nat, Object<S, T>>,
    queue: set<Key>)

  /** The objects of a cache in list order. */
  function Items<T>(order: seq<Key>, cache: map<Key, T>): seq<T>
    requires forall k :: k in order ==> k in cache
  {
    seq(|order|, i requires 0 <= i < |order| => cache[order[i]])
  }

  function Stamped<S, T>(o: Object<S, T>, rv: nat): Object<S, T> {
    o.(meta := o.meta.(resourceVersion := rv))
  }

  /** An effective write: the object is stored under the fresh resource version `rv`. */
  function StoreAt<S, T>(st: Store<S, T>, o: Object<S, T>, rv: nat): Store<S, T> {
    st.(stored := st.stored[o.meta.key := Stamped(o, rv)], log := st.log[rv := Stamped(o, rv)])
  }

  /** An update is rejected unless it was made from the stored version. */
  predicate Accepts<S, T>(st: Store<S, T>, read: Object<S, T>) {
    && read.meta.key in st.stored
    && st.stored[read.meta.key].meta.resourceVersion == read.meta.resourceVersion
  }

  /** Storing `next` over the stored object of its key; storing the same content again is not a write. */
  predicate Changes<S(==), T(==)>(st: Store<S, T>, next: Object<S, T>) {
    next.meta.key !in st.stored || st.stored[next.meta.key] != next
  }

  function Save<S(==), T(==)>(st: Store<S, T>, next: Object<S, T>, clock: nat): Store<S, T> {
    if Changes(st, next) then StoreAt(st, next, clock + 1) else st
  }

  function Tick<S(==), T(==)>(st: Store<S, T>, next: Object<S, T>, clock: nat): nat {
    if Changes(st, next) then clock + 1 else clock
  }

  /** What an update of the main resource makes of the stored object: the status in the request is ignored, and
      the generation moves exactly with the spec. */
  function Merged<S(==), T>(stored: Object<S, T>, sent: Object<S, T>): Object<S, T> {
    var generation := if sent.spec == stored.spec then stored.meta.generation else stored.meta.generation + 1;
    Object(stored.meta.(labels := sent.meta.labels, annotations := sent.meta.annotations, generation := generation),
           sent.spec, stored.status)
  }

  /** A delivery updates the cache and queues the key. */
  function Deliver<S, T>(st: Store<S, T>, o: Object<S, T>): Store<S, T> {
    st.(cache := st.cache[o.meta.key := o], queue := st.queue + {o.meta.key})
  }

  function Drop<S, T>(st: Store<S, T>, k: Key): Store<S, T> {
    st.(cache := st.cache - {k}, queue := st.queue + {k})
  }

  function Enqueue<S, T>(st: Store<S, T>, k: Key): Store<S, T> {
    st.(queue := st.queue + {k})
  }

  function Dequeue<S, T>(st: Store<S, T>, k: Key): Store<S, T> {
    st.(queue := st.queue - {k})
  }

  function Delete<S, T>(st: Store<S, T>, k: Key): Store<S, T> {
    st.(stored := st.stored - {k})
  }

  /** A first version, as a user creates it. */
  function Created<S, T>(k: Key, labels: map<string, string>, annotations: map<string, string>, spec: S, status: T): Object<S, T> {
    Object(ObjectMeta(k, labels, annotations, 1, 0), spec, status)
  }

  /** A user's change of an object. */
  function Edited<S(==), T>(o: Object<S, T>, labels: map<string, string>, annotations: map<string, string>, spec: S): Object<S, T> {
    Merged(o, o.(meta := o.meta.(labels := labels, annotations := annotations), spec := spec))
  }

  /** The copy the module controller sends to wake an exporter. */
  function Touched<S, T>(o: Object<S, T>, resourceVersion: nat): Object<S, T> {
    o.(meta := o.meta.(annotations := o.meta.annotations[TOUCH := Decimal(resourceVersion)]))
  }

  // ---- versions ----

  /** The object is one of the versions stored so far. */
  ghost predicate Version<S, T>(st: Store<S, T>, o: Object<S, T>) {
    o.meta.resourceVersion in st.log && st.log[o.meta.resourceVersion] == o
  }

  /** Objects sit under their own key; stored and cached objects are versions; the stored one is the newest. */
  ghost predicate Logged<S, T>(st: Store<S, T>, clock: nat) {
    && (forall r :: r in st.log ==> r <= clock && st.log[r].meta.resourceVersion == r)
    && (forall k :: k in st.stored ==> st.stored[k].meta.key == k && Version(st, st.stored[k]))
    && (forall k :: k in st.cache ==> st.cache[k].meta.key == k && Version(st, st.cache[k]))
    && (forall r :: r in st.log && st.log[r].meta.key in st.stored ==>
          r <= st.stored[st.log[r].meta.key].meta.resourceVersion)
  }

  ghost predicate Grows<S, T>(a: Store<S, T>, b: Store<S, T>) {
    forall r :: r in a.log ==> r in b.log && b.log[r] == a.log[r]
  }

  lemma VersionPersists<S, T>(a: Store<S, T>, b: Store<S, T>, o: Object<S, T>)
    requires Grows(a, b) && Version(a, o)
    ensures Version(b, o)
  {
  }

  lemma PutLogged<S, T>(st: Store<S, T>, o: Object<S, T>, clock: nat)
    requires Logged(st, clock)
    ensures Logged(StoreAt(st, o, clock + 1), clock + 1)
    ensures Grows(st, StoreAt(st, o, clock + 1))
    ensures Version(StoreAt(st, o, clock + 1), Stamped(o, clock + 1))
  {
    var b := StoreAt(st, o, clock + 1);
    assert clock + 1 !in st.log;
    forall k | k in b.stored ensures b.stored[k].meta.key == k && Version(b, b.stored[k]) {
      if k != o.meta.key {
        assert Version(st, st.stored[k]);
      }
    }
    forall k | k in b.cache ensures b.cache[k].meta.key == k && Version(b, b.cache[k]) {
      assert Version(st, st.cache[k]);
    }
  }

  /** Any write leaves the store sound and forgets no version. */
  lemma SaveLogged<S, T>(st: Store<S, T>, next: Object<S, T>, clock: nat)
    requires Logged(st, clock)
    ensures Logged(Save(st, next, clock), Tick(st, next, clock))
    ensures Grows(st, Save(st, next, clock))
  {
    if Changes(st, next) {
      PutLogged(st, next, clock);
    }
  }

  lemma LaterClock<S, T>(st: Store<S, T>, clock: nat, later: nat)
    requires Logged(st, clock) && clock <= later
    ensures Logged(st, later)
  {
  }

  lemma DeliverLogged<S, T>(st: Store<S, T>, o: Object<S, T>, clock: nat)
    requires Logged(st, clock) && Version(st, o)
    ensures Logged(Deliver(st, o), clock)
  {
    var b := Deliver(st, o);
    forall k | k in b.stored ensures Version(b, b.stored[k]) {
      assert Version(st, st.stored[k]);
    }
    forall k | k in b.cache ensures b.cache[k].meta.key == k && Version(b, b.cache[k]) {
      if k != o.meta.key {
        assert Version(st, st.cache[k]);
      }
    }
  }

  /** Dropping from the cache or the store, and queueing, keep a store sound. */
  lemma ShrinkLogged<S, T>(st: Store<S, T>, b: Store<S, T>, clock: nat)
    requires Logged(st, clock)
    requires b.log == st.log
    requires forall k :: k in b.stored ==> k in st.stored && b.stored[k] == st.stored[k]
    requires forall k :: k in b.cache ==> k in st.cache && b.cache[k] == st.cache[k]
    ensures Logged(b, clock)
  {
    forall k | k in b.stored ensures b.stored[k].meta.key == k && Version(b, b.stored[k]) {
      assert Version(st, st.stored[k]);
    }
    forall k | k in b.cache ensures b.cache[k].meta.key == k && Version(b, b.cache[k]) {
      assert Version(st, st.cache[k]);
    }
  }

  /** One resource version names one content: an update that is accepted was made from the stored object itself. */
  lemma AcceptedIsCurrent<S, T>(st: Store<S, T>, clock: nat, read: Object<S, T>)
    requires Logged(st, clock) && Version(st, read) && Accepts(st, read)
    ensures st.stored[read.meta.key] == read
  {
    assert Version(st, st.stored[read.meta.key]);
  }
}
