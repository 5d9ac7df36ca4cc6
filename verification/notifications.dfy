/**
 * The toast queue of src/shared/assets/ui/Notification/NotificationProvider.tsx: every
 * notification gets the next id from a counter starting at 1 and schedules its own
 * hide 5000 ms later; hiding filters the list by id.
 */
module Notifications {

  datatype Kind = Success | Error | Info

  datatype Notification = Notification(id: nat, message: string, kind: Kind)

  /** `prev.filter(n => n.id !== id)`. */
  function WithoutId(ns: seq<Notification>, id: nat): (r: seq<Notification>)
    ensures forall n :: n in r <==> n in ns && n.id != id
    ensures |r| <= |ns|
  {
    if ns == [] then []
    else if ns[0].id == id then WithoutId(ns[1..], id)
    else [ns[0]] + WithoutId(ns[1..], id)
  }

  /** Filtering works piece by piece, so the notifications that stay keep their order. */
  lemma {:induction false} WithoutIdConcat(a: seq<Notification>, b: seq<Notification>, id: nat)
    ensures WithoutId(a + b, id) == WithoutId(a, id) + WithoutId(b, id)
    decreases |a|
  {
    if a == [] {
      assert a + b == b;
    } else {
      assert (a + b)[1..] == a[1..] + b;
      WithoutIdConcat(a[1..], b, id);
    }
  }

  /** Hiding an id that no notification carries changes nothing. */
  lemma {:induction false} WithoutAbsentId(ns: seq<Notification>, id: nat)
    requires forall i :: 0 <= i < |ns| ==> ns[i].id != id
    ensures WithoutId(ns, id) == ns
    decreases |ns|
  {
    if ns != [] {
      WithoutAbsentId(ns[1..], id);
      assert [ns[0]] + ns[1..] == ns;
    }
  }

  /** Hiding is idempotent. */
  lemma WithoutIdIdempotent(ns: seq<Notification>, id: nat)
    ensures WithoutId(WithoutId(ns, id), id) == WithoutId(ns, id)
  {
    var r := WithoutId(ns, id);
    forall i | 0 <= i < |r| ensures r[i].id != id {
      assert r[i] in r;
    }
    WithoutAbsentId(r, id);
  }

  predicate IncreasingIds(ns: seq<Notification>) {
    forall i, j :: 0 <= i < j < |ns| ==> ns[i].id < ns[j].id
  }

  predicate Increasing(xs: seq<nat>) {
    forall i, j :: 0 <= i < j < |xs| ==> xs[i] < xs[j]
  }

  /** Hiding keeps the list ordered by id. */
  lemma {:induction false} WithoutIdKeepsOrder(ns: seq<Notification>, id: nat)
    requires IncreasingIds(ns)
    ensures IncreasingIds(WithoutId(ns, id))
    decreases |ns|
  {
    if ns != [] {
      var rest := WithoutId(ns[1..], id);
      WithoutIdKeepsOrder(ns[1..], id);
      if ns[0].id != id {
        forall j | 0 <= j < |rest| ensures ns[0].id < rest[j].id {
          assert rest[j] in ns[1..];
          var k :| 0 <= k < |ns[1..]| && ns[1..][k] == rest[j];
          assert ns[k + 1] == rest[j];
        }
        assert WithoutId(ns, id) == [ns[0]] + rest;
      }
    }
  }

  class NotificationCenter {
    /** The notifications on screen, oldest first. */
    var notifications: seq<Notification>
    /** `nextId`: the id the next notification gets. */
    var nextId: nat
    /** Ids whose 5000 ms hide timer has not fired yet, in the order they were scheduled. */
    var pendingHides: seq<nat>

    /**
     * Ids are issued in increasing order and never reused, and every notification on
     * screen still has exactly one hide timer pending (a manual close leaves its timer
     * pending, which is harmless).
     */
    ghost predicate Valid()
      reads this
    {
      && nextId >= 1
      && IncreasingIds(notifications)
      && Increasing(pendingHides)
      && (forall i :: 0 <= i < |pendingHides| ==> 1 <= pendingHides[i] < nextId)
      && (forall i :: 0 <= i < |notifications| ==> notifications[i].id in pendingHides)
    }

    constructor ()
      ensures Valid()
      ensures notifications == [] && nextId == 1 && pendingHides == []
    {
      notifications := [];
      nextId := 1;
      pendingHides := [];
    }

    /** Between the two states exactly one `showNotification(message, kind)` happened. */
    twostate predicate Showed(message: string, kind: Kind)
      reads this
    {
      && notifications == old(notifications) + [Notification(old(nextId), message, kind)]
      && nextId == old(nextId) + 1
      && pendingHides == old(pendingHides) + [old(nextId)]
    }

    /** `showNotification(message, kind)`: append with the current id, count up, schedule the hide. */
    method Show(message: string, kind: Kind)
      requires Valid()
      modifies this
      ensures Valid()
      ensures notifications == old(notifications) + [Notification(old(nextId), message, kind)]
      ensures nextId == old(nextId) + 1
      ensures pendingHides == old(pendingHides) + [old(nextId)]
    {
      var id := nextId;
      nextId := nextId + 1;
      forall i | 0 <= i < |notifications| ensures notifications[i].id < id {
        var k :| 0 <= k < |pendingHides| && pendingHides[k] == notifications[i].id;
      }
      notifications := notifications + [Notification(id, message, kind)];
      pendingHides := pendingHides + [id];
    }

    /** `hideNotification(id)`: drop exactly the notifications with that id. */
    method Hide(id: nat)
      requires Valid()
      modifies this`notifications
      ensures Valid()
      ensures notifications == WithoutId(old(notifications), id)
    {
      WithoutIdKeepsOrder(notifications, id);
      var kept := WithoutId(notifications, id);
      forall i | 0 <= i < |kept| ensures kept[i].id in pendingHides {
        assert kept[i] in notifications;
      }
      notifications := kept;
    }

    /** The oldest pending hide timer fires. */
    method FireHide()
      requires Valid() && pendingHides != []
      modifies this`notifications, this`pendingHides
      ensures Valid()
      ensures notifications == WithoutId(old(notifications), old(pendingHides)[0])
      ensures pendingHides == old(pendingHides)[1..]
    {
      var id := pendingHides[0];
      Hide(id);
      forall i | 0 <= i < |notifications| ensures notifications[i].id in pendingHides[1..] {
        var k :| 0 <= k < |pendingHides| && pendingHides[k] == notifications[i].id;
        assert notifications[i] in notifications;
        assert k != 0;
        assert pendingHides[1..][k - 1] == notifications[i].id;
      }
      pendingHides := pendingHides[1..];
    }
  }
}
