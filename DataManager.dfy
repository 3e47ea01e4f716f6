/**
 * The data manager: the stored list of subscriptions and the mutations
 * the screens call, each of which also tells the notification manager.
 *
 * Every mutation is one synchronous step (the app runs it on the main
 * queue); saving the list afterwards is a side effect outside this model.
 */
module Store {
  import opened Wrappers
  import opened Models
  import opened Seqs
  import opened Notifications
  import opened Aggregates

  /** No two records share an id. */
  predicate UniqueIds(subs: seq<Subscription>)
  {
    forall i, j :: 0 <= i < j < |subs| ==> subs[i].id != subs[j].id
  }

  /** `firstIndex(where: { $0.id == id })`. */
  function FirstIndexOfId(subs: seq<Subscription>, id: Uuid): (r: Option<nat>)
    ensures r.Some? ==> r.value < |subs| && subs[r.value].id == id
    ensures r.Some? ==> forall j :: 0 <= j < r.value ==> subs[j].id != id
    ensures r.None? <==> forall j :: 0 <= j < |subs| ==> subs[j].id != id
  {
    if subs == [] then None
    else if subs[0].id == id then Some(0)
    else
      match FirstIndexOfId(subs[1..], id)
      case None => None
      case Some(i) => Some(i + 1)
  }

  /**
   * The list after `updateSubscription(s)`: the first record with `s.id`
   * is replaced by `s` in place; every other position is untouched.
   */
  function Updated(subs: seq<Subscription>, s: Subscription): (r: seq<Subscription>)
    ensures |r| == |subs|
    ensures forall j :: 0 <= j < |subs| ==>
      r[j] == (if subs[j].id == s.id && forall k :: 0 <= k < j ==> subs[k].id != s.id then s else subs[j])
  {
    match FirstIndexOfId(subs, s.id)
    case None => subs
    case Some(i) => subs[i := s]
  }

  /** The list after `removeAll { $0.id == id }`. */
  function RemovedById(subs: seq<Subscription>, id: Uuid): (r: seq<Subscription>)
    ensures forall x :: multiset(r)[x] == (if x.id == id then 0 else multiset(subs)[x])
    ensures IsSubsequence(r, subs)
    ensures (forall x :: x in subs ==> x.id != id) ==> r == subs
  {
    var keep := (x: Subscription) => x.id != id;
    FilterIsSubsequence(keep, subs);
    FilterKeepsAll(keep, subs);
    FilterCounts(keep, subs);
    Filter(keep, subs)
  }

  /** The positions below `n` that are not in `offsets`, in increasing order. */
  function KeptIndices(n: nat, offsets: set<int>): (r: seq<nat>)
    ensures forall j :: 0 <= j < |r| ==> r[j] < n && r[j] !in offsets
    ensures forall i :: 0 <= i < n && i !in offsets ==> i in r
    ensures forall j, k :: 0 <= j < k < |r| ==> r[j] < r[k]
  {
    if n == 0 then []
    else KeptIndices(n - 1, offsets) + (if n - 1 in offsets then [] else [n - 1])
  }

  /**
   * The list after `remove(atOffsets: offsets)`: the survivors, in their
   * order, are exactly the records at the positions not in `offsets`.
   */
  function RemovedAtOffsets(subs: seq<Subscription>, offsets: set<int>): (r: seq<Subscription>)
    ensures var kept := KeptIndices(|subs|, offsets);
      |r| == |kept| && forall j :: 0 <= j < |r| ==> r[j] == subs[kept[j]]
  {
    if subs == [] then []
    else
      var n := |subs|;
      var prefix := subs[..n - 1];
      var before := RemovedAtOffsets(prefix, offsets);
      var keptBefore := KeptIndices(n - 1, offsets);
      var kept := KeptIndices(n, offsets);
      var r := before + (if n - 1 in offsets then [] else [subs[n - 1]]);
      assert kept == keptBefore + (if n - 1 in offsets then [] else [n - 1]);
      forall j | 0 <= j < |r| ensures r[j] == subs[kept[j]] {
        if j < |before| { assert r[j] == before[j] == prefix[keptBefore[j]] && kept[j] == keptBefore[j]; }
      }
      r
  }

  /** The offsets below `n`. */
  function OffsetsBelow(offsets: set<int>, n: nat): set<int>
  {
    set i | i in offsets && 0 <= i < n
  }

  /** With every offset in range, `remove(atOffsets:)` shortens the list by the number of offsets. */
  lemma RemovedAtOffsetsLength(subs: seq<Subscription>, offsets: set<int>)
    requires forall i :: i in offsets ==> 0 <= i < |subs|
    ensures |RemovedAtOffsets(subs, offsets)| == |subs| - |offsets|
  {
    KeptIndicesCount(|subs|, offsets);
    assert OffsetsBelow(offsets, |subs|) == offsets;
  }

  lemma {:induction false} KeptIndicesCount(n: nat, offsets: set<int>)
    ensures |KeptIndices(n, offsets)| == n - |OffsetsBelow(offsets, n)|
  {
    if n > 0 {
      KeptIndicesCount(n - 1, offsets);
      OffsetsBelowStep(offsets, n);
      KeptIndicesLengthStep(n, offsets);
    }
  }

  lemma KeptIndicesLengthStep(n: nat, offsets: set<int>)
    requires n > 0
    ensures |KeptIndices(n, offsets)| == |KeptIndices(n - 1, offsets)| + (if n - 1 in offsets then 0 else 1)
  {
    assert KeptIndices(n, offsets) == KeptIndices(n - 1, offsets) + (if n - 1 in offsets then [] else [n - 1]);
  }

  lemma OffsetsBelowStep(offsets: set<int>, n: nat)
    requires n > 0
    ensures |OffsetsBelow(offsets, n)| == |OffsetsBelow(offsets, n - 1)| + (if n - 1 in offsets then 1 else 0)
  {
    var below := OffsetsBelow(offsets, n - 1);
    assert n - 1 !in below;
    if n - 1 in offsets {
      assert OffsetsBelow(offsets, n) == below + {n - 1};
    } else {
      assert OffsetsBelow(offsets, n) == below;
    }
  }

  /** Removing whole records never creates a duplicate id. */
  lemma {:induction false} SubsequenceKeepsIdsUnique(r: seq<Subscription>, subs: seq<Subscription>)
    requires IsSubsequence(r, subs) && UniqueIds(subs)
    ensures UniqueIds(r)
    decreases |subs|
  {
    if r != [] {
      if IsSubsequence(r, subs[1..]) {
        SubsequenceKeepsIdsUnique(r, subs[1..]);
      } else {
        SubsequenceKeepsIdsUnique(r[1..], subs[1..]);
        SubsequenceMembers(r[1..], subs[1..]);
        forall j | 0 < j < |r| ensures r[0].id != r[j].id {
          assert r[j] == r[1..][j - 1];
          assert r[j] in subs[1..];
          var k :| 0 <= k < |subs[1..]| && subs[1..][k] == r[j];
          assert subs[0].id != subs[k + 1].id;
        }
      }
    }
  }

  lemma {:induction false} SubsequenceMembers<T>(r: seq<T>, s: seq<T>)
    requires IsSubsequence(r, s)
    ensures forall x :: x in r ==> x in s
    decreases |s|
  {
    if r != [] {
      if IsSubsequence(r, s[1..]) {
        SubsequenceMembers(r, s[1..]);
      } else {
        SubsequenceMembers(r[1..], s[1..]);
        assert forall x :: x in r ==> x == r[0] || x in r[1..];
      }
    }
  }

  /** Adding a record with a fresh id keeps the ids unique. */
  lemma AddKeepsIdsUnique(subs: seq<Subscription>, s: Subscription)
    requires UniqueIds(subs)
    requires forall x :: x in subs ==> x.id != s.id
    ensures UniqueIds(subs + [s])
  {
    forall i, j | 0 <= i < j < |subs| + 1 ensures (subs + [s])[i].id != (subs + [s])[j].id {
      if j == |subs| {
        assert subs[i] in subs;
      }
    }
  }

  /** An update never changes the set of ids, so it keeps them unique. */
  lemma UpdateKeepsIdsUnique(subs: seq<Subscription>, s: Subscription)
    requires UniqueIds(subs)
    ensures UniqueIds(Updated(subs, s))
    ensures forall j :: 0 <= j < |subs| ==> Updated(subs, s)[j].id == subs[j].id
  {
  }

  /** Both deletions keep the ids unique. */
  lemma DeleteKeepsIdsUnique(subs: seq<Subscription>, id: Uuid, offsets: set<int>)
    requires UniqueIds(subs)
    ensures UniqueIds(RemovedById(subs, id))
    ensures UniqueIds(RemovedAtOffsets(subs, offsets))
  {
    SubsequenceKeepsIdsUnique(RemovedById(subs, id), subs);
    var kept := KeptIndices(|subs|, offsets);
    var r := RemovedAtOffsets(subs, offsets);
    forall i, j | 0 <= i < j < |r| ensures r[i].id != r[j].id {
      assert kept[i] < kept[j];
    }
  }

  /**
   * Editing a record just added: with a fresh id, updating the appended
   * record changes that one record and nothing else.
   */
  lemma UpdateAfterAdd(subs: seq<Subscription>, s: Subscription, edited: Subscription)
    requires forall x :: x in subs ==> x.id != s.id
    requires edited.id == s.id
    ensures Updated(subs + [s], edited) == subs + [edited]
  {
    var all := subs + [s];
    var r := Updated(all, edited);
    forall j | 0 <= j < |all| ensures r[j] == (subs + [edited])[j] {
      if j < |subs| {
        assert all[j] == subs[j] && subs[j] in subs;
      } else {
        forall k | 0 <= k < j ensures all[k].id != s.id {
          assert all[k] == subs[k] && subs[k] in subs;
        }
      }
    }
  }

  /** After deleting by id no record with that id is left. */
  lemma DeleteRemovesEveryMatch(subs: seq<Subscription>, id: Uuid)
    ensures forall x :: x in RemovedById(subs, id) ==> x.id != id
    ensures forall x :: x in subs && x.id != id ==> x in RemovedById(subs, id)
  {
    var r := RemovedById(subs, id);
    forall x ensures x in r <==> multiset(r)[x] > 0 {
    }
  }

  class DataManager {
    var subscriptions: seq<Subscription>
    const notificationManager: NotificationManager

    /** The manager with the list that loading produced (decoded, sample or empty). */
    constructor (loaded: seq<Subscription>, notifier: NotificationManager)
      ensures subscriptions == loaded && notificationManager == notifier
    {
      subscriptions := loaded;
      notificationManager := notifier;
    }

    /** Appends `s` and asks for its reminder, whether or not it is active. */
    method AddSubscription(s: Subscription, now: Date, cal: Calendar)
      modifies this, notificationManager`pending
      ensures subscriptions == old(subscriptions) + [s]
      ensures notificationManager.pending
           == Scheduled(old(notificationManager.pending), notificationManager.isNotificationEnabled, s, now, cal)
    {
      subscriptions := subscriptions + [s];
      notificationManager.ScheduleNotification(s, now, cal);
    }

    /**
     * Replaces the first record with `s.id`; its reminder is cancelled and a
     * new one requested only when `s` is active. Without a match nothing changes.
     */
    method UpdateSubscription(s: Subscription, now: Date, cal: Calendar)
      modifies this, notificationManager`pending
      ensures subscriptions == Updated(old(subscriptions), s)
      ensures (forall x :: x in old(subscriptions) ==> x.id != s.id) ==>
                notificationManager.pending == old(notificationManager.pending)
      ensures (exists x :: x in old(subscriptions) && x.id == s.id) ==>
                notificationManager.pending ==
                  var cancelled := old(notificationManager.pending) - {RequestIdentifier(s.id)};
                  if s.isActive
                  then Scheduled(cancelled, notificationManager.isNotificationEnabled, s, now, cal)
                  else cancelled
    {
      var index := FirstIndexOfId(subscriptions, s.id);
      if index.Some? {
        notificationManager.CancelNotification(subscriptions[index.value]);
        subscriptions := subscriptions[index.value := s];
        if s.isActive {
          notificationManager.ScheduleNotification(s, now, cal);
        }
      }
    }

    /**
     * `deleteSubscription(at:)`: cancels the reminder of each record at one
     * of the offsets, then removes those records. The offsets must all be in
     * range: removing at an offset past the end traps.
     */
    method DeleteSubscriptionsAt(offsets: set<int>)
      requires forall i :: i in offsets ==> 0 <= i < |subscriptions|
      modifies this, notificationManager`pending
      ensures subscriptions == RemovedAtOffsets(old(subscriptions), offsets)
      ensures notificationManager.pending == old(notificationManager.pending)
                - set i | i in offsets :: RequestIdentifier(old(subscriptions)[i].id)
    {
      for index := 0 to |subscriptions|
        invariant subscriptions == old(subscriptions)
        invariant notificationManager.pending == old(notificationManager.pending)
                    - set i | i in OffsetsBelow(offsets, index) :: RequestIdentifier(subscriptions[i].id)
      {
        if index in offsets {
          notificationManager.CancelNotification(subscriptions[index]);
        }
      }
      assert OffsetsBelow(offsets, |subscriptions|) == offsets;
      subscriptions := RemovedAtOffsets(subscriptions, offsets);
    }

    /** `deleteSubscription(_:)`: cancels the reminder of `s` and removes every record with its id. */
    method DeleteSubscription(s: Subscription)
      modifies this, notificationManager`pending
      ensures subscriptions == RemovedById(old(subscriptions), s.id)
      ensures notificationManager.pending == old(notificationManager.pending) - {RequestIdentifier(s.id)}
    {
      notificationManager.CancelNotification(s);
      subscriptions := RemovedById(subscriptions, s.id);
    }

    /** Rebuilds the pending reminders from the active records. */
    method RescheduleAllNotifications(now: Date, cal: Calendar)
      modifies notificationManager`pending
      ensures notificationManager.pending
           == Rescheduled(notificationManager.isNotificationEnabled, ActiveSubscriptions(subscriptions), now, cal)
    {
      notificationManager.RescheduleAllNotifications(ActiveSubscriptions(subscriptions), now, cal);
    }
  }

  /** Passing only the active records, as the data manager does, yields the same reminders as passing all. */
  lemma {:induction false} RescheduledIgnoresInactive(enabled: bool, subs: seq<Subscription>, now: Date, cal: Calendar)
    ensures Rescheduled(enabled, ActiveSubscriptions(subs), now, cal) == Rescheduled(enabled, subs, now, cal)
    decreases |subs|
  {
    if subs != [] {
      var prefix := subs[..|subs| - 1];
      var last := subs[|subs| - 1];
      assert subs == prefix + [last];
      RescheduledIgnoresInactive(enabled, prefix, now, cal);
      ActiveSubscriptionsSnoc(prefix, last);
      RescheduledSnoc(enabled, prefix, last, now, cal);
      var active := ActiveSubscriptions(prefix);
      if last.isActive {
        RescheduledSnoc(enabled, active, last, now, cal);
      } else {
        assert active + [] == active;
      }
    }
  }
}
