/**
 * renderTickets (app.js): the ticket board. Expired deleted tickets are
 * purged, the rest are filtered by the selected property and split into the
 * active, completed and deleted lists, each sorted newest first and shown as
 * one card per ticket or as its empty-state placeholder.
 *
 * Timestamps are milliseconds; a missing timestamp is None.
 */
module Tickets {
  import opened Wrappers

  /** 30 days, in milliseconds. */
  const RetentionMs: int := 30 * 24 * 60 * 60 * 1000

  datatype Ticket = Ticket(
    id: string,
    propertyId: Option<string>,
    status: string,
    dateCreated: Option<int>,
    dateCompleted: Option<int>,
    deletedAt: Option<int>)

  /** The tickets object, as its (key, ticket) entries in key order. */
  type Entries = seq<(string, Ticket)>

  /** The ticket of an entry with its `id` field set to the entry's key. */
  function Stamp(e: (string, Ticket)): Ticket {
    e.1.(id := e.0)
  }

  /** A deleted ticket whose deletion is strictly older than 30 days before `now`. */
  predicate Expired(t: Ticket, now: int) {
    t.deletedAt.Some? && t.deletedAt.value < now - RetentionMs
  }

  /** `selectedPropertyId` is truthy: present and not the empty string. */
  predicate FilterOn(selected: Option<string>) {
    selected.Some? && selected.value != ""
  }

  /** Where the forEach callback sends a ticket, in the order of its tests. */
  datatype Fate = Purged | FilteredOut | Deleted | Completed | Active

  function FateOf(t: Ticket, now: int, selected: Option<string>): Fate {
    if Expired(t, now) then Purged
    else if FilterOn(selected) && t.propertyId != Some(selected.value) then FilteredOut
    else if t.deletedAt.Some? then Deleted
    else if t.status == "Completed" then Completed
    else Active
  }

  /** The stamped tickets whose fate is `f`, in entry order. */
  function Select(entries: Entries, now: int, selected: Option<string>, f: Fate): seq<Ticket> {
    if entries == [] then []
    else
      var t := Stamp(entries[|entries| - 1]);
      Select(entries[..|entries| - 1], now, selected, f) + (if FateOf(t, now, selected) == f then [t] else [])
  }

  /** The keys of the purged tickets, in entry order: the delete requests sent. */
  function PurgeIds(entries: Entries, now: int): seq<string> {
    if entries == [] then []
    else
      var e := entries[|entries| - 1];
      PurgeIds(entries[..|entries| - 1], now) + (if Expired(e.1, now) then [e.0] else [])
  }

  /** The tickets of the entries, each stamped with its key, in entry order. */
  function Stamped(entries: Entries): seq<Ticket> {
    if entries == [] then []
    else Stamped(entries[..|entries| - 1]) + [Stamp(entries[|entries| - 1])]
  }

  /** The ids of a list of tickets, in order. */
  function Ids(ts: seq<Ticket>): seq<string> {
    if ts == [] then []
    else Ids(ts[..|ts| - 1]) + [ts[|ts| - 1].id]
  }

  /** A bucket holds exactly the stamped tickets with its fate. */
  lemma {:induction false} SelectMembers(entries: Entries, now: int, selected: Option<string>, f: Fate)
    ensures forall x :: x in Select(entries, now, selected, f) <==> x in Stamped(entries) && FateOf(x, now, selected) == f
  {
    if entries != [] {
      SelectMembers(entries[..|entries| - 1], now, selected, f);
    }
  }

  lemma SelectStep(entries: Entries, now: int, selected: Option<string>, f: Fate)
    requires entries != []
    ensures var t := Stamp(entries[|entries| - 1]);
      multiset(Select(entries, now, selected, f))
      == multiset(Select(entries[..|entries| - 1], now, selected, f)) + (if FateOf(t, now, selected) == f then multiset{t} else multiset{})
  {
  }

  lemma StampedStep(entries: Entries)
    requires entries != []
    ensures multiset(Stamped(entries)) == multiset(Stamped(entries[..|entries| - 1])) + multiset{Stamp(entries[|entries| - 1])}
  {
  }

  /** Every ticket lands in exactly one of the five fates: nothing is lost or duplicated. */
  lemma {:induction false} PartitionComplete(entries: Entries, now: int, selected: Option<string>)
    ensures multiset(Select(entries, now, selected, Purged)) + multiset(Select(entries, now, selected, FilteredOut))
          + multiset(Select(entries, now, selected, Deleted)) + multiset(Select(entries, now, selected, Completed))
          + multiset(Select(entries, now, selected, Active))
         == multiset(Stamped(entries))
  {
    if entries != [] {
      var init := entries[..|entries| - 1];
      PartitionComplete(init, now, selected);
      SelectStep(entries, now, selected, Purged);
      SelectStep(entries, now, selected, FilteredOut);
      SelectStep(entries, now, selected, Deleted);
      SelectStep(entries, now, selected, Completed);
      SelectStep(entries, now, selected, Active);
      StampedStep(entries);
      var t := Stamp(entries[|entries| - 1]);
      AddToOneBucket(t, FateOf(t, now, selected),
        multiset(Select(init, now, selected, Purged)), multiset(Select(init, now, selected, FilteredOut)),
        multiset(Select(init, now, selected, Deleted)), multiset(Select(init, now, selected, Completed)),
        multiset(Select(init, now, selected, Active)));
    }
  }

  /** Adding `t` to the bucket of its fate adds it once to the union of the buckets. */
  lemma AddToOneBucket(t: Ticket, f: Fate, p: multiset<Ticket>, o: multiset<Ticket>, d: multiset<Ticket>,
                       c: multiset<Ticket>, a: multiset<Ticket>)
    ensures (p + (if f == Purged then multiset{t} else multiset{}))
          + (o + (if f == FilteredOut then multiset{t} else multiset{}))
          + (d + (if f == Deleted then multiset{t} else multiset{}))
          + (c + (if f == Completed then multiset{t} else multiset{}))
          + (a + (if f == Active then multiset{t} else multiset{}))
         == p + o + d + c + a + multiset{t}
  {
  }

  /** The delete requests are the ids of the purged tickets, whatever property is selected. */
  lemma {:induction false} PurgeIdsArePurged(entries: Entries, now: int, selected: Option<string>)
    ensures PurgeIds(entries, now) == Ids(Select(entries, now, selected, Purged))
  {
    if entries != [] {
      var init := entries[..|entries| - 1];
      var e := entries[|entries| - 1];
      var t := Stamp(e);
      PurgeIdsArePurged(init, now, selected);
      assert Expired(t, now) == Expired(e.1, now);
      if Expired(t, now) {
        var s := Select(init, now, selected, Purged);
        assert (s + [t])[..|s|] == s;
        assert Ids(s + [t]) == Ids(s) + [e.0];
      } else {
        assert PurgeIds(entries, now) == PurgeIds(init, now);
        assert Select(entries, now, selected, Purged) == Select(init, now, selected, Purged);
      }
    }
  }

  /** A delete request goes out for a key exactly when its ticket was deleted more than 30 days ago. */
  lemma {:induction false} PurgeIdsMembers(entries: Entries, now: int)
    ensures forall key :: key in PurgeIds(entries, now) <==>
      exists i | 0 <= i < |entries| :: entries[i].0 == key && Expired(entries[i].1, now)
  {
    if entries != [] {
      var init := entries[..|entries| - 1];
      PurgeIdsMembers(init, now);
      forall key | key in PurgeIds(entries, now)
        ensures exists i | 0 <= i < |entries| :: entries[i].0 == key && Expired(entries[i].1, now)
      {
        if key in PurgeIds(init, now) {
          var i :| 0 <= i < |init| && init[i].0 == key && Expired(init[i].1, now);
          assert entries[i] == init[i];
        }
      }
      forall key | exists i | 0 <= i < |entries| :: entries[i].0 == key && Expired(entries[i].1, now)
        ensures key in PurgeIds(entries, now)
      {
        var i :| 0 <= i < |entries| && entries[i].0 == key && Expired(entries[i].1, now);
        if i < |init| {
          assert init[i] == entries[i];
        }
      }
    }
  }

  /**
   * What the three buckets hold: deleted tickets within the retention window,
   * completed and active ones not deleted, all of the selected property when
   * a property is selected.
   */
  lemma BucketsMeaning(entries: Entries, now: int, selected: Option<string>)
    ensures forall t | t in Select(entries, now, selected, Deleted) ::
      t.deletedAt.Some? && t.deletedAt.value >= now - RetentionMs
    ensures forall t | t in Select(entries, now, selected, Completed) ::
      t.deletedAt.None? && t.status == "Completed"
    ensures forall t | t in Select(entries, now, selected, Active) ::
      t.deletedAt.None? && t.status != "Completed"
    ensures FilterOn(selected) ==> forall t | t in Select(entries, now, selected, Deleted) :: t.propertyId == selected
    ensures FilterOn(selected) ==> forall t | t in Select(entries, now, selected, Completed) :: t.propertyId == selected
    ensures FilterOn(selected) ==> forall t | t in Select(entries, now, selected, Active) :: t.propertyId == selected
  {
    SelectMembers(entries, now, selected, Deleted);
    SelectMembers(entries, now, selected, Completed);
    SelectMembers(entries, now, selected, Active);
  }

  // ---------------------------------------------------------------------------
  // Sorting (Array.prototype.sort with `(a, b) => bTime - aTime`: stable, newest first)

  datatype SortKey = ByCreated | ByCompleted | ByDeleted

  /** `x?.toMillis ? x.toMillis() : (x || 0)`: a missing timestamp counts as 0. */
  function KeyOf(t: Ticket, k: SortKey): int {
    var ts := match k
      case ByCreated => t.dateCreated
      case ByCompleted => t.dateCompleted
      case ByDeleted => t.deletedAt;
    if ts.Some? then ts.value else 0
  }

  predicate SortedDesc(ts: seq<Ticket>, k: SortKey) {
    forall i, j :: 0 <= i < j < |ts| ==> KeyOf(ts[i], k) >= KeyOf(ts[j], k)
  }

  /** Inserts `t` before the first ticket that is not newer than it. */
  function Insert(t: Ticket, ts: seq<Ticket>, k: SortKey): seq<Ticket> {
    if ts == [] || KeyOf(t, k) >= KeyOf(ts[0], k) then [t] + ts
    else [ts[0]] + Insert(t, ts[1..], k)
  }

  /** The stable descending sort, as an insertion sort from the back of the list. */
  function SortDesc(ts: seq<Ticket>, k: SortKey): seq<Ticket> {
    if ts == [] then []
    else Insert(ts[0], SortDesc(ts[1..], k), k)
  }

  /** No ticket of `ts` is newer than `b`. */
  predicate AtMost(ts: seq<Ticket>, k: SortKey, b: int) {
    forall x | x in ts :: KeyOf(x, k) <= b
  }

  lemma SortedCons(h: Ticket, tail: seq<Ticket>, k: SortKey)
    requires SortedDesc(tail, k) && AtMost(tail, k, KeyOf(h, k))
    ensures SortedDesc([h] + tail, k)
  {
    var r := [h] + tail;
    forall i, j | 0 <= i < j < |r| ensures KeyOf(r[i], k) >= KeyOf(r[j], k) {
      assert r[j] == tail[j - 1];
      if i > 0 {
        assert r[i] == tail[i - 1];
      }
    }
  }

  lemma SortedUncons(ts: seq<Ticket>, k: SortKey)
    requires ts != [] && SortedDesc(ts, k)
    ensures SortedDesc(ts[1..], k) && AtMost(ts[1..], k, KeyOf(ts[0], k))
  {
    forall x | x in ts[1..] ensures KeyOf(x, k) <= KeyOf(ts[0], k) {
      var m :| 0 <= m < |ts[1..]| && ts[1..][m] == x;
      assert ts[m + 1] == x;
    }
  }

  lemma {:induction false} InsertMultiset(t: Ticket, ts: seq<Ticket>, k: SortKey)
    ensures multiset(Insert(t, ts, k)) == multiset(ts) + multiset{t}
  {
    if ts != [] && KeyOf(t, k) < KeyOf(ts[0], k) {
      InsertMultiset(t, ts[1..], k);
      assert ts == [ts[0]] + ts[1..];
    }
  }

  lemma {:induction false} InsertAtMost(t: Ticket, ts: seq<Ticket>, k: SortKey, b: int)
    requires AtMost(ts, k, b) && KeyOf(t, k) <= b
    ensures AtMost(Insert(t, ts, k), k, b)
  {
    if ts != [] && KeyOf(t, k) < KeyOf(ts[0], k) {
      assert ts[0] in ts;
      InsertAtMost(t, ts[1..], k, b);
    }
  }

  lemma {:induction false} InsertSorted(t: Ticket, ts: seq<Ticket>, k: SortKey)
    requires SortedDesc(ts, k)
    ensures SortedDesc(Insert(t, ts, k), k)
  {
    if ts == [] || KeyOf(t, k) >= KeyOf(ts[0], k) {
      forall x | x in ts ensures KeyOf(x, k) <= KeyOf(t, k) {
        var m :| 0 <= m < |ts| && ts[m] == x;
        if m > 0 {
          assert KeyOf(ts[0], k) >= KeyOf(ts[m], k);
        }
      }
      SortedCons(t, ts, k);
    } else {
      SortedUncons(ts, k);
      InsertSorted(t, ts[1..], k);
      InsertAtMost(t, ts[1..], k, KeyOf(ts[0], k));
      SortedCons(ts[0], Insert(t, ts[1..], k), k);
    }
  }

  /** The sort orders the tickets newest first. */
  lemma {:induction false} SortDescSorted(ts: seq<Ticket>, k: SortKey)
    ensures SortedDesc(SortDesc(ts, k), k)
  {
    if ts != [] {
      SortDescSorted(ts[1..], k);
      InsertSorted(ts[0], SortDesc(ts[1..], k), k);
    }
  }

  /** The sort only reorders: the result is a permutation of its input. */
  lemma {:induction false} SortDescPermutes(ts: seq<Ticket>, k: SortKey)
    ensures multiset(SortDesc(ts, k)) == multiset(ts)
  {
    if ts != [] {
      SortDescPermutes(ts[1..], k);
      InsertPermutes(ts[0], SortDesc(ts[1..], k), ts[1..], k);
      assert ts == [ts[0]] + ts[1..];
    }
  }

  lemma InsertPermutes(h: Ticket, s: seq<Ticket>, rest: seq<Ticket>, k: SortKey)
    requires multiset(s) == multiset(rest)
    ensures multiset(Insert(h, s, k)) == multiset([h] + rest)
  {
    InsertMultiset(h, s, k);
  }

  /** The tickets with key `v`, in sequence order. */
  function WithKey(ts: seq<Ticket>, k: SortKey, v: int): seq<Ticket> {
    if ts == [] then []
    else (if KeyOf(ts[0], k) == v then [ts[0]] else []) + WithKey(ts[1..], k, v)
  }

  lemma WithKeyCons(h: Ticket, ts: seq<Ticket>, k: SortKey, v: int)
    ensures WithKey([h] + ts, k, v) == WithKey([h], k, v) + WithKey(ts, k, v)
  {
    assert ([h] + ts)[1..] == ts;
    assert [h][1..] == [];
  }

  lemma {:induction false} InsertWithKey(t: Ticket, ts: seq<Ticket>, k: SortKey, v: int)
    ensures WithKey(Insert(t, ts, k), k, v) == WithKey([t], k, v) + WithKey(ts, k, v)
  {
    if ts == [] || KeyOf(t, k) >= KeyOf(ts[0], k) {
      WithKeyCons(t, ts, k, v);
    } else {
      var r := Insert(t, ts[1..], k);
      InsertWithKey(t, ts[1..], k, v);
      WithKeyCons(ts[0], r, k, v);
      WithKeyCons(ts[0], ts[1..], k, v);
      assert ts == [ts[0]] + ts[1..];
      SwapApart(WithKey([ts[0]], k, v), WithKey([t], k, v), WithKey(ts[1..], k, v));
    }
  }

  /** Two pieces, one of them empty, can be put in either order. */
  lemma SwapApart(a: seq<Ticket>, b: seq<Ticket>, c: seq<Ticket>)
    requires a == [] || b == []
    ensures a + (b + c) == b + (a + c)
  {
    if a == [] {
      assert a + (b + c) == b + c;
    } else {
      assert b + (a + c) == a + c;
    }
  }

  /** The sort is stable: tickets with equal keys keep their input order. */
  lemma {:induction false} SortDescStable(ts: seq<Ticket>, k: SortKey, v: int)
    ensures WithKey(SortDesc(ts, k), k, v) == WithKey(ts, k, v)
  {
    if ts != [] {
      SortDescStable(ts[1..], k, v);
      InsertWithKey(ts[0], SortDesc(ts[1..], k), k, v);
      WithKeyCons(ts[0], ts[1..], k, v);
      assert ts == [ts[0]] + ts[1..];
    }
  }

  // ---------------------------------------------------------------------------
  // Rendering

  /** A child of a ticket list: a card (createTicketCard) or the empty-state placeholder. */
  datatype Element = Card(ticket: Ticket, deleted: bool) | EmptyState(icon: string, message: string)

  const NoActive: Element := EmptyState("\U{1F4CB}", "No active tickets")
  const NoCompleted: Element := EmptyState("\U{2705}", "No completed tickets")
  const NoDeleted: Element := EmptyState("\U{1F5D1}\U{FE0F}", "No deleted tickets")

  /** One card per ticket, in order. */
  function Cards(ts: seq<Ticket>, deleted: bool): seq<Element> {
    seq(|ts|, i requires 0 <= i < |ts| => Card(ts[i], deleted))
  }

  /** What a list shows: the placeholder when there is no ticket, the cards otherwise. */
  function Shown(ts: seq<Ticket>, empty: Element, deleted: bool): seq<Element> {
    if ts == [] then [empty] else Cards(ts, deleted)
  }

  /** The tickets a list of children shows, in order. */
  function CardTickets(children: seq<Element>): seq<Ticket> {
    if children == [] then []
    else (if children[0].Card? then [children[0].ticket] else []) + CardTickets(children[1..])
  }

  /** Reading the cards back gives the tickets in their order; the placeholder shows exactly when there are none. */
  lemma {:induction false} ShownTickets(ts: seq<Ticket>, empty: Element, deleted: bool)
    requires empty.EmptyState?
    ensures CardTickets(Shown(ts, empty, deleted)) == ts
    ensures Shown(ts, empty, deleted) == [empty] <==> ts == []
    ensures forall c | c in Shown(ts, empty, deleted) && c.Card? :: c.deleted == deleted
  {
    if ts != [] {
      CardsTickets(ts, deleted);
      assert Shown(ts, empty, deleted)[0] == Card(ts[0], deleted);
    }
  }

  lemma {:induction false} CardsTickets(ts: seq<Ticket>, deleted: bool)
    ensures CardTickets(Cards(ts, deleted)) == ts
  {
    if ts != [] {
      assert Cards(ts, deleted)[1..] == Cards(ts[1..], deleted);
      CardsTickets(ts[1..], deleted);
      assert ts == [ts[0]] + ts[1..];
    }
  }

  /**
   * A rendered list, read back: its tickets are the bucket sorted newest first
   * (a stable permutation of it), and it holds only the placeholder exactly
   * when the bucket is empty.
   */
  lemma ListView(bucket: seq<Ticket>, k: SortKey, empty: Element, deleted: bool)
    requires empty.EmptyState?
    ensures var shown := CardTickets(Shown(SortDesc(bucket, k), empty, deleted));
      SortedDesc(shown, k) && multiset(shown) == multiset(bucket)
      && (forall v :: WithKey(shown, k, v) == WithKey(bucket, k, v))
    ensures Shown(SortDesc(bucket, k), empty, deleted) == [empty] <==> bucket == []
  {
    ShownTickets(SortDesc(bucket, k), empty, deleted);
    SortDescSorted(bucket, k);
    SortDescPermutes(bucket, k);
    forall v ensures WithKey(SortDesc(bucket, k), k, v) == WithKey(bucket, k, v) {
      SortDescStable(bucket, k, v);
    }
    if bucket != [] {
      assert bucket[0] in multiset(SortDesc(bucket, k));
    }
  }

  /** The forEach that appends one card per ticket to a list. */
  method AppendCards(ts: seq<Ticket>, deleted: bool) returns (children: seq<Element>)
    ensures children == Cards(ts, deleted)
  {
    children := [];
    for i := 0 to |ts|
      invariant children == Cards(ts[..i], deleted)
    {
      children := children + [Card(ts[i], deleted)];
    }
    assert ts[..|ts|] == ts;
  }

  /** One list filled: the placeholder for no tickets, the cards otherwise. */
  method RenderList(ts: seq<Ticket>, empty: Element, deleted: bool) returns (children: seq<Element>)
    ensures children == Shown(ts, empty, deleted)
  {
    if |ts| == 0 {
      children := [empty];
    } else {
      children := AppendCards(ts, deleted);
    }
  }

  /** The page: the three ticket lists (the deleted one may be missing) and the delete requests sent to the database. */
  class Board {
    var activeList: seq<Element>
    var completedList: seq<Element>
    var deletedList: Option<seq<Element>>
    var deleteRequests: seq<string>

    constructor(hasDeletedList: bool)
      ensures activeList == [] && completedList == []
      ensures deletedList == if hasDeletedList then Some([]) else None
      ensures deleteRequests == []
    {
      activeList := [];
      completedList := [];
      deletedList := if hasDeletedList then Some([]) else None;
      deleteRequests := [];
    }

    /** The forEach over the tickets: purges the expired ones and fills the three buckets. */
    method Partition(entries: Entries, now: int, selected: Option<string>)
      returns (active: seq<Ticket>, completed: seq<Ticket>, deleted: seq<Ticket>)
      modifies this
      ensures active == Select(entries, now, selected, Active)
      ensures completed == Select(entries, now, selected, Completed)
      ensures deleted == Select(entries, now, selected, Deleted)
      ensures deleteRequests == old(deleteRequests) + PurgeIds(entries, now)
      ensures activeList == old(activeList) && completedList == old(completedList) && deletedList == old(deletedList)
    {
      active, completed, deleted := [], [], [];
      for i := 0 to |entries|
        invariant active == Select(entries[..i], now, selected, Active)
        invariant completed == Select(entries[..i], now, selected, Completed)
        invariant deleted == Select(entries[..i], now, selected, Deleted)
        invariant deleteRequests == old(deleteRequests) + PurgeIds(entries[..i], now)
        invariant activeList == old(activeList) && completedList == old(completedList) && deletedList == old(deletedList)
      {
        assert entries[..i + 1][..i] == entries[..i];
        var id := entries[i].0;
        var ticket := entries[i].1.(id := id);
        if ticket.deletedAt.Some? && ticket.deletedAt.value < now - RetentionMs {
          deleteRequests := deleteRequests + [id];
        } else if FilterOn(selected) && ticket.propertyId != selected {
        } else if ticket.deletedAt.Some? {
          deleted := deleted + [ticket];
        } else if ticket.status == "Completed" {
          completed := completed + [ticket];
        } else {
          active := active + [ticket];
        }
      }
      assert entries[..|entries|] == entries;
    }

    /** renderTickets: clears the lists, purges, partitions, sorts and renders. */
    method RenderTickets(entries: Entries, now: int, selected: Option<string>)
      modifies this
      ensures activeList == Shown(SortDesc(Select(entries, now, selected, Active), ByCreated), NoActive, false)
      ensures completedList == Shown(SortDesc(Select(entries, now, selected, Completed), ByCompleted), NoCompleted, false)
      ensures deletedList ==
        if old(deletedList).Some? then Some(Shown(SortDesc(Select(entries, now, selected, Deleted), ByDeleted), NoDeleted, true))
        else None
      ensures deleteRequests == old(deleteRequests) + PurgeIds(entries, now)
    {
      activeList := [];
      completedList := [];
      if deletedList.Some? {
        deletedList := Some([]);
      }
      var active, completed, deleted := Partition(entries, now, selected);
      active := SortDesc(active, ByCreated);
      completed := SortDesc(completed, ByCompleted);
      activeList := RenderList(active, NoActive, false);
      completedList := RenderList(completed, NoCompleted, false);
      if deletedList.Some? {
        deleted := SortDesc(deleted, ByDeleted);
        var children := RenderList(deleted, NoDeleted, true);
        deletedList := Some(children);
      }
    }
  }
}
