/** Which finished records the service retains: the newest `limit` under the order (time, name). */
module Pruning {
  import opened Seqs

  /** A record that may be dropped; time 0 is Go's zero time. */
  datatype Candidate<K> = Candidate(key: K, time: nat)

  /** The comparison the service sorts with. */
  predicate Before<K>(l: Candidate<K>, r: Candidate<K>, name: K -> string) {
    if l.time == r.time then StringLess(name(l.key), name(r.key))
    else if l.time == 0 then true
    else if r.time == 0 then false
    else l.time < r.time
  }

  predicate Older<K>(times: map<K, nat>, name: K -> string, a: K, b: K)
    requires a in times && b in times
  {
    times[a] < times[b] || (times[a] == times[b] && StringLess(name(a), name(b)))
  }

  ghost function Newer<K>(times: map<K, nat>, name: K -> string, k: K): set<K>
    requires k in times
  {
    set c | c in times && Older(times, name, k, c)
  }

  /** The retained keys, said without sorting: fewer than `limit` candidates are newer. */
  ghost function KeepNewest<K>(times: map<K, nat>, name: K -> string, limit: int): set<K> {
    set k | k in times && |Newer(times, name, k)| < limit
  }

  ghost predicate DistinctNames<K>(times: map<K, nat>, name: K -> string) {
    forall a, b :: a in times && b in times && name(a) == name(b) ==> a == b
  }

  lemma CandidateOrder<K(!new)>(name: K -> string)
    ensures WeakOrder((l: Candidate<K>, r: Candidate<K>) => Before(l, r, name))
  {
    var less := (l: Candidate<K>, r: Candidate<K>) => Before(l, r, name);
    forall a: Candidate<K>, b: Candidate<K> | less(a, b) ensures !less(b, a) {
      StringLessTrichotomy(name(a.key), name(b.key));
    }
    forall a: Candidate<K>, b: Candidate<K>, c: Candidate<K> | !less(b, a) && !less(c, b) ensures !less(c, a) {
      NotBeforeTransitive(a, b, c, name);
    }
  }

  lemma NotBeforeTransitive<K>(a: Candidate<K>, b: Candidate<K>, c: Candidate<K>, name: K -> string)
    requires !Before(b, a, name) && !Before(c, b, name)
    ensures !Before(c, a, name)
  {
    if a.time == b.time == c.time {
      StringLessTrichotomy(name(a.key), name(b.key));
      StringLessTrichotomy(name(b.key), name(c.key));
      StringLessTrichotomy(name(a.key), name(c.key));
      if name(a.key) != name(b.key) && name(b.key) != name(c.key) {
        StringLessTransitive(name(a.key), name(b.key), name(c.key));
      }
    }
  }

  // ---- From a sorted candidate list to the set specification ----

  /** `cs` lists, once each and with its time, every key of `times` outside `rest`. */
  ghost predicate ListsExcept<K>(cs: seq<Candidate<K>>, times: map<K, nat>, rest: set<K>) {
    && (forall i :: 0 <= i < |cs| ==> cs[i].key in times && cs[i].key !in rest && cs[i].time == times[cs[i].key])
    && (forall k :: k in times && k !in rest ==> Candidate(k, times[k]) in cs)
    && (forall i, j :: 0 <= i < j < |cs| ==> cs[i] != cs[j])
  }

  ghost predicate Lists<K>(cs: seq<Candidate<K>>, times: map<K, nat>) {
    ListsExcept(cs, times, {})
  }

  function KeysFrom<K>(cs: seq<Candidate<K>>, i: nat): set<K>
    requires i <= |cs|
  {
    set j | i <= j < |cs| :: cs[j].key
  }

  lemma {:induction false} KeysFromSize<K>(cs: seq<Candidate<K>>, times: map<K, nat>, i: nat)
    requires i <= |cs|
    requires Lists(cs, times)
    ensures |KeysFrom(cs, i)| == |cs| - i
    decreases |cs| - i
  {
    if i < |cs| {
      KeysFromSize(cs, times, i + 1);
      assert KeysFrom(cs, i) == KeysFrom(cs, i + 1) + {cs[i].key};
      assert cs[i].key !in KeysFrom(cs, i + 1);
    }
  }

  lemma NewerIsTail<K(!new)>(cs: seq<Candidate<K>>, times: map<K, nat>, name: K -> string, i: nat)
    requires Lists(cs, times) && DistinctNames(times, name) && i < |cs|
    requires SortedBy(cs, (l: Candidate<K>, r: Candidate<K>) => Before(l, r, name))
    ensures Newer(times, name, cs[i].key) == KeysFrom(cs, i + 1)
  {
    var less := (l: Candidate<K>, r: Candidate<K>) => Before(l, r, name);
    forall j | 0 <= j < |cs|
      ensures Older(times, name, cs[i].key, cs[j].key) <==> j > i
    {
      StringLessTrichotomy(name(cs[i].key), name(cs[j].key));
      if j > i {
        assert !less(cs[j], cs[i]);
      } else if j < i {
        assert !less(cs[i], cs[j]);
      }
    }
  }

  /** Dropping the oldest |cs| - limit of a sorted list keeps exactly KeepNewest. */
  lemma DropOldestKeepsNewest<K(!new)>(cs: seq<Candidate<K>>, times: map<K, nat>, name: K -> string, limit: nat)
    requires Lists(cs, times) && DistinctNames(times, name)
    requires SortedBy(cs, (l: Candidate<K>, r: Candidate<K>) => Before(l, r, name))
    ensures KeepNewest(times, name, limit) == KeysFrom(cs, if |cs| <= limit then 0 else |cs| - limit)
  {
    var cut := if |cs| <= limit then 0 else |cs| - limit;
    forall i | 0 <= i < |cs|
      ensures cs[i].key in KeepNewest(times, name, limit) <==> i >= cut
    {
      NewerIsTail(cs, times, name, i);
      KeysFromSize(cs, times, i + 1);
    }
  }

  lemma ListsOneMore<K>(cs: seq<Candidate<K>>, times: map<K, nat>, rest: set<K>, k: K)
    requires ListsExcept(cs, times, rest) && k in rest && k in times
    ensures ListsExcept(cs + [Candidate(k, times[k])], times, rest - {k})
  {
    var cs' := cs + [Candidate(k, times[k])];
    forall x | x in times && x !in rest - {k} ensures Candidate(x, times[x]) in cs' {
      if x == k {
        assert cs'[|cs|] == Candidate(x, times[x]);
      } else {
        assert Candidate(x, times[x]) in cs;
      }
    }
  }

  lemma PermutationLists<K>(cs: seq<Candidate<K>>, ds: seq<Candidate<K>>, times: map<K, nat>)
    requires Lists(cs, times) && multiset(ds) == multiset(cs)
    ensures Lists(ds, times)
  {
    forall i | 0 <= i < |ds| ensures ds[i].key in times && ds[i].time == times[ds[i].key] {
      assert ds[i] in multiset(cs);
    }
    forall k | k in times ensures Candidate(k, times[k]) in ds {
      assert Candidate(k, times[k]) in multiset(cs);
    }
    forall i, j | 0 <= i < j < |ds| ensures ds[i] != ds[j] {
      if ds[i] == ds[j] {
        TwiceInPermutation(cs, ds, i, j);
        assert false;
      }
    }
  }

  method Collect<K(==)>(times: map<K, nat>) returns (cs: seq<Candidate<K>>)
    ensures Lists(cs, times)
  {
    var rest := times.Keys;
    cs := [];
    while rest != {}
      invariant rest <= times.Keys
      invariant ListsExcept(cs, times, rest)
      decreases rest
    {
      var k :| k in rest;
      ListsOneMore(cs, times, rest, k);
      cs := cs + [Candidate(k, times[k])];
      rest := rest - {k};
    }
  }

  /** The service's pruning loop: collect candidates in map order, sort, drop the oldest ones over the limit. */
  method OldestOverLimit<K(!new, ==)>(times: map<K, nat>, name: K -> string, limit: int) returns (drop: set<K>)
    requires DistinctNames(times, name)
    ensures drop == times.Keys - KeepNewest(times, name, limit)
    ensures |KeepNewest(times, name, limit)| == Min(|times|, if limit < 0 then 0 else limit)
  {
    var bound: nat := if limit < 0 then 0 else limit;
    var cs := Collect(times);
    CandidateOrder(name);
    var sorted := Sort(cs, (l: Candidate<K>, r: Candidate<K>) => Before(l, r, name));
    PermutationLists(cs, sorted, times);
    OldestInFront(sorted, times, name, limit);
    drop := {};
    var n := if |sorted| <= bound then 0 else |sorted| - bound;
    for i := 0 to n
      invariant drop == KeysBefore(sorted, i)
    {
      OneMoreKey(sorted, i);
      drop := drop + {sorted[i].key};
    }
  }

  function KeysBefore<K>(cs: seq<Candidate<K>>, n: nat): set<K>
    requires n <= |cs|
  {
    set j | 0 <= j < n :: cs[j].key
  }

  lemma OneMoreKey<K>(cs: seq<Candidate<K>>, n: nat)
    requires n < |cs|
    ensures KeysBefore(cs, n + 1) == KeysBefore(cs, n) + {cs[n].key}
  {
  }

  /** The front of the sorted candidates is what the limit drops. */
  lemma OldestInFront<K(!new)>(cs: seq<Candidate<K>>, times: map<K, nat>, name: K -> string, limit: int)
    requires Lists(cs, times) && DistinctNames(times, name)
    requires SortedBy(cs, (l: Candidate<K>, r: Candidate<K>) => Before(l, r, name))
    ensures var bound := if limit < 0 then 0 else limit;
            var n := if |cs| <= bound then 0 else |cs| - bound;
            && KeysBefore(cs, n) == times.Keys - KeepNewest(times, name, limit)
            && |KeepNewest(times, name, limit)| == Min(|times|, bound)
  {
    var bound := if limit < 0 then 0 else limit;
    var n := if |cs| <= bound then 0 else |cs| - bound;
    DropOldestKeepsNewest(cs, times, name, bound);
    assert KeepNewest(times, name, limit) == KeepNewest(times, name, bound);
    KeysSplit(cs, times, n);
    KeptSize(cs, times, n);
  }

  lemma KeptSize<K>(cs: seq<Candidate<K>>, times: map<K, nat>, n: nat)
    requires Lists(cs, times) && n <= |cs|
    ensures |KeysFrom(cs, n)| == |times| - n && |times| == |cs|
  {
    KeysFromSize(cs, times, n);
    KeysFromSize(cs, times, 0);
    KeysSplit(cs, times, 0);
    assert KeysFrom(cs, 0) == times.Keys;
  }

  lemma KeysSplit<K>(cs: seq<Candidate<K>>, times: map<K, nat>, n: nat)
    requires Lists(cs, times) && n <= |cs|
    ensures KeysBefore(cs, n) == times.Keys - KeysFrom(cs, n)
  {
    var front := KeysBefore(cs, n);
    forall k | k in times ensures k in front <==> k !in KeysFrom(cs, n) {
      var j :| 0 <= j < |cs| && cs[j] == Candidate(k, times[k]);
      assert j < n ==> k in front;
    }
  }

  // ---- The set specification means what its name says ----

  /** Keeping the newest twice changes nothing the second time. */
  lemma KeepNewestIdempotent<K>(times: map<K, nat>, name: K -> string, limit: int)
    ensures var kept := KeepNewest(times, name, limit);
            KeepNewest(map k | k in times && k in kept :: times[k], name, limit) == kept
  {
    var kept := KeepNewest(times, name, limit);
    var again := map k | k in times && k in kept :: times[k];
    forall k | k in again ensures |Newer(again, name, k)| < limit {
      SubsetSize(Newer(again, name, k), Newer(times, name, k));
    }
  }

  lemma {:induction false} SubsetSize<T>(a: set<T>, b: set<T>)
    requires a <= b
    ensures |a| <= |b|
  {
    if a != {} {
      var x :| x in a;
      SubsetSize(a - {x}, b - {x});
    }
  }

  /** Everything newer than a kept record is kept. */
  lemma KeepNewestUpwardClosed<K>(times: map<K, nat>, name: K -> string, limit: int, k: K, newer: K)
    requires k in KeepNewest(times, name, limit) && newer in times && Older(times, name, k, newer)
    ensures newer in KeepNewest(times, name, limit)
  {
    forall c | c in Newer(times, name, newer) ensures c in Newer(times, name, k) {
      if times[k] == times[newer] == times[c] {
        StringLessTransitive(name(k), name(newer), name(c));
      }
    }
    SubsetSize(Newer(times, name, newer), Newer(times, name, k));
  }
}
