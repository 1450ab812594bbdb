/**
 * The observer list of the state broadcaster, as a value. Observers are
 * compared by equality: the unsubscribe closure filters out every entry equal
 * to its callback, so a callback registered twice loses both registrations.
 */
module Observers {
  /** A state callback; two equal ids stand for the same function reference. */
  type ObserverId = nat

  /** The list with every entry equal to `cb` removed (`filter((sub) => sub !== cb)`). */
  function Without(subs: seq<ObserverId>, cb: ObserverId): (r: seq<ObserverId>)
    ensures cb !in r
    ensures multiset(r) == multiset(subs)[cb := 0]
  {
    if subs == [] then []
    else
      assert subs == [subs[0]] + subs[1..];
      if subs[0] == cb then Without(subs[1..], cb)
      else [subs[0]] + Without(subs[1..], cb)
  }

  /** Filtering a concatenation filters each part. */
  lemma {:induction false} WithoutAppend(a: seq<ObserverId>, b: seq<ObserverId>, cb: ObserverId)
    ensures Without(a + b, cb) == Without(a, cb) + Without(b, cb)
  {
    if a != [] {
      assert (a + b)[1..] == a[1..] + b;
      WithoutAppend(a[1..], b, cb);
    } else {
      assert a + b == b;
    }
  }

  /** Removing a callback that is not registered changes nothing. */
  lemma {:induction false} WithoutAbsent(subs: seq<ObserverId>, cb: ObserverId)
    requires cb !in subs
    ensures Without(subs, cb) == subs
  {
    if subs != [] {
      WithoutAbsent(subs[1..], cb);
    }
  }

  /** Calling the same unsubscribe closure twice: the second call is a no-op. */
  lemma {:induction false} WithoutIdempotent(subs: seq<ObserverId>, cb: ObserverId)
    ensures Without(Without(subs, cb), cb) == Without(subs, cb)
  {
    WithoutAbsent(Without(subs, cb), cb);
  }

  /** Subscribing then unsubscribing also drops any earlier registrations of the same callback. */
  lemma SubscribeThenUnsubscribe(subs: seq<ObserverId>, cb: ObserverId)
    ensures Without(subs + [cb], cb) == Without(subs, cb)
    ensures cb !in subs ==> Without(subs + [cb], cb) == subs
  {
    WithoutAppend(subs, [cb], cb);
    assert Without([cb], cb) == [];
    if cb !in subs {
      WithoutAbsent(subs, cb);
    }
  }

  /** The position entry `i` of `subs` takes in the filtered list. */
  function Rank(subs: seq<ObserverId>, cb: ObserverId, i: nat): nat
    requires i <= |subs|
  {
    |Without(subs[..i], cb)|
  }

  /** An entry other than `cb` survives the filter, at position `Rank`. */
  lemma WithoutKeeps(subs: seq<ObserverId>, cb: ObserverId, i: nat)
    requires i < |subs| && subs[i] != cb
    ensures Rank(subs, cb, i) < |Without(subs, cb)|
    ensures Without(subs, cb)[Rank(subs, cb, i)] == subs[i]
  {
    assert subs == subs[..i] + subs[i..];
    WithoutAppend(subs[..i], subs[i..], cb);
    assert subs[i..] == [subs[i]] + subs[i + 1..];
    assert Without(subs[i..], cb) == [subs[i]] + Without(subs[i + 1..], cb);
  }

  /** The filter keeps the surviving entries in their original relative order. */
  lemma WithoutKeepsOrder(subs: seq<ObserverId>, cb: ObserverId, i: nat, j: nat)
    requires i < j < |subs| && subs[i] != cb && subs[j] != cb
    ensures Rank(subs, cb, i) < Rank(subs, cb, j) < |Without(subs, cb)|
    ensures Without(subs, cb)[Rank(subs, cb, i)] == subs[i]
    ensures Without(subs, cb)[Rank(subs, cb, j)] == subs[j]
  {
    WithoutKeeps(subs, cb, i);
    WithoutKeeps(subs, cb, j);
    var pre := subs[..j];
    assert pre == pre[..i] + pre[i..];
    assert pre[..i] == subs[..i];
    WithoutAppend(pre[..i], pre[i..], cb);
    WithoutKeeps(pre, cb, i);
  }
}
