/**
  Change notification: a list of watchers behind a lock, each with a channel of capacity two that drops
  what does not fit.
*/
module Watchers {

  const CAPACITY := 2

  class Watcher {
    var queued: nat
    var open: bool
    const resources: seq<string>

    constructor (resources: seq<string>)
      ensures open && queued == 0 && this.resources == resources
    {
      queued, open := 0, true;
      this.resources := resources;
    }

    /** A send that does not wait. Sending on a closed channel would end the program. */
    method Offer()
      requires open
      modifies this`queued
      ensures queued == Offered(old(queued))
    {
      if queued < CAPACITY {
        queued := queued + 1;
      }
    }
  }

  function Offered(queued: nat): nat {
    if queued < CAPACITY then queued + 1 else queued
  }

  /** The queue of a watcher after a notification about `resource`. */
  function Notified(queued: nat, resources: seq<string>, resource: string): nat {
    if resource in resources then Offered(queued) else queued
  }

  function Without<T(==)>(xs: seq<T>, x: T): seq<T> {
    if xs == [] then [] else if xs[0] == x then xs[1..] else [xs[0]] + Without(xs[1..], x)
  }

  predicate Distinct<T(==)>(xs: seq<T>) {
    forall i, j :: 0 <= i < j < |xs| ==> xs[i] != xs[j]
  }

  lemma {:induction false} WithoutAt<T>(xs: seq<T>, x: T, i: nat)
    requires i < |xs| && xs[i] == x && x !in xs[..i]
    ensures Without(xs, x) == xs[..i] + xs[i + 1..]
  {
    if i > 0 {
      assert xs[0] == xs[..i][0];
      assert xs[1..][..i - 1] == xs[1..i];
      WithoutAt(xs[1..], x, i - 1);
      assert [xs[0]] + (xs[1..i] + xs[i + 1..]) == xs[..i] + xs[i + 1..];
    }
  }

  lemma {:induction false} WithoutMissing<T>(xs: seq<T>, x: T)
    requires x !in xs
    ensures Without(xs, x) == xs
  {
    if xs != [] {
      WithoutMissing(xs[1..], x);
    }
  }

  /** Removing one of distinct elements removes it and nothing else. */
  lemma {:induction false} WithoutMembers<T>(xs: seq<T>, x: T, y: T)
    requires Distinct(xs)
    ensures y in Without(xs, x) <==> y in xs && y != x
    ensures Distinct(Without(xs, x))
  {
    if x in xs {
      var i :| 0 <= i < |xs| && xs[i] == x;
      assert x !in xs[..i];
      WithoutAt(xs, x, i);
      assert x !in xs[i + 1..];
      assert xs == xs[..i] + [x] + xs[i + 1..];
    } else {
      WithoutMissing(xs, x);
    }
  }

  class Server {
    var watchers: seq<Watcher>

    /** Registered watchers are distinct, and their channels are open. */
    ghost predicate Valid()
      reads this, watchers
    {
      && Distinct(watchers)
      && forall i :: 0 <= i < |watchers| ==> watchers[i].open && watchers[i].queued <= CAPACITY
    }

    constructor ()
      ensures Valid() && watchers == []
    {
      watchers := [];
    }

    method NewWatcher(resources: seq<string>) returns (w: Watcher)
      requires Valid()
      modifies this
      ensures Valid() && fresh(w) && w.open && w.queued == 0 && w.resources == resources
      ensures watchers == old(watchers) + [w]
    {
      w := new Watcher(resources);
      watchers := watchers + [w];
    }

    /** Closes the channel and takes exactly this watcher off the list. Closing twice would end the program. */
    method Close(w: Watcher)
      requires Valid() && w.open
      modifies this, w`open
      ensures Valid() && !w.open && watchers == Without(old(watchers), w)
      ensures forall v :: v in watchers <==> v in old(watchers) && v != w
    {
      forall v ensures v in Without(watchers, w) <==> v in watchers && v != w {
        WithoutMembers(watchers, w, v);
      }
      WithoutMembers(watchers, w, w);
      hide Without;
      w.open := false;
      for i := 0 to |watchers|
        invariant watchers == old(watchers) && w !in watchers[..i]
      {
        if watchers[i] == w {
          WithoutAt(watchers, w, i);
          watchers := watchers[..i] + watchers[i + 1..];
          return;
        }
      }
      WithoutMissing(watchers, w);
    }

    /** Every registered watcher of the resource is offered one event; no other queue changes. */
    method NotifyWatchers(resource: string)
      requires Valid()
      modifies watchers
      ensures Valid()
      ensures forall i :: 0 <= i < |watchers| ==>
        watchers[i].queued == Notified(old(watchers[i].queued), watchers[i].resources, resource)
    {
      for i := 0 to |watchers|
        invariant forall j :: 0 <= j < |watchers| ==> watchers[j].open
        invariant forall j :: 0 <= j < i ==>
          watchers[j].queued == Notified(old(watchers[j].queued), watchers[j].resources, resource)
        invariant forall j :: i <= j < |watchers| ==> watchers[j].queued == old(watchers[j].queued)
      {
        var w := watchers[i];
        for k := 0 to |w.resources|
          invariant resource !in w.resources[..k]
          invariant forall j :: 0 <= j < |watchers| ==> watchers[j].open
          invariant forall j :: 0 <= j < i ==>
            watchers[j].queued == Notified(old(watchers[j].queued), watchers[j].resources, resource)
          invariant forall j :: i <= j < |watchers| ==> watchers[j].queued == old(watchers[j].queued)
        {
          if w.resources[k] == resource {
            w.Offer();
            break;
          }
        }
      }
    }
  }
}
