/** The `useNotification` composable: one module-level list of notifications
    that every caller shares, with `add` and `remove`. */
module Notifications {
  import opened Wrappers

  datatype Kind = Success | Error | Info | Warning

  datatype Notification = Notification(id: string, title: string, description: string, kind: Kind, timeout: int)

  const DEFAULT_TIMEOUT := 5000

  /** The ids of a list, in order. */
  function Ids(s: seq<Notification>): (ids: seq<string>)
    ensures |ids| == |s|
    ensures forall k :: 0 <= k < |s| ==> ids[k] == s[k].id
  {
    if s == [] then [] else [s[0].id] + Ids(s[1..])
  }

  /** The list without the first notification carrying `id`: what
      `findIndex` followed by `splice(index, 1)` leaves. */
  function RemoveFirst(s: seq<Notification>, id: string): seq<Notification>
  {
    if s == [] then []
    else if s[0].id == id then s[1..]
    else [s[0]] + RemoveFirst(s[1..], id)
  }

  /** When `i` is the first position carrying `id`, exactly that entry goes
      and the others keep their order. */
  lemma {:induction false} RemoveFirstAt(s: seq<Notification>, id: string, i: nat)
    requires i < |s| && s[i].id == id
    requires forall k :: 0 <= k < i ==> s[k].id != id
    ensures RemoveFirst(s, id) == s[..i] + s[i + 1..]
    decreases i
  {
    if i > 0 {
      RemoveFirstAt(s[1..], id, i - 1);
      assert s[1..][..i - 1] == s[1..i];
      assert s[1..][i..] == s[i + 1..];
      assert s[..i] == [s[0]] + s[1..i];
    }
  }

  /** Removing an id that no entry carries leaves the list as it was. */
  lemma {:induction false} RemoveFirstAbsent(s: seq<Notification>, id: string)
    requires id !in Ids(s)
    ensures RemoveFirst(s, id) == s
  {
    if s != [] {
      assert s[0].id == Ids(s)[0];
      assert id !in Ids(s[1..]) by {
        forall k | 0 <= k < |s| - 1
          ensures Ids(s[1..])[k] != id
        {
          assert Ids(s[1..])[k] == Ids(s)[k + 1];
        }
      }
      RemoveFirstAbsent(s[1..], id);
    }
  }

  /** Exactly one entry goes when the id is present, none otherwise, and
      whatever remains was in the list before. */
  lemma {:induction false} RemoveFirstShrinks(s: seq<Notification>, id: string)
    ensures |RemoveFirst(s, id)| == if id in Ids(s) then |s| - 1 else |s|
    ensures forall n :: n in RemoveFirst(s, id) ==> n in s
  {
    if s != [] {
      RemoveFirstShrinks(s[1..], id);
      assert Ids(s) == [s[0].id] + Ids(s[1..]);
    }
  }

  /** A notification with a fresh id, added and then removed, leaves the
      list exactly as it was before the add. */
  lemma RemoveUndoesAdd(s: seq<Notification>, n: Notification)
    requires n.id !in Ids(s)
    ensures RemoveFirst(s + [n], n.id) == s
  {
    var t := s + [n];
    forall k | 0 <= k < |s|
      ensures t[k].id != n.id
    {
      assert t[k].id == Ids(s)[k];
    }
    RemoveFirstAt(t, n.id, |s|);
    assert t[..|s|] == s;
  }

  /** The shared `notifications` list. `pending` holds the ids whose removal
      timer has been started and has not fired yet, in the order they were
      started. */
  class NotificationCenter {
    var notifications: seq<Notification>
    var pending: seq<string>

    constructor()
      ensures notifications == [] && pending == []
    {
      notifications := [];
      pending := [];
    }

    /** `add(options)`: `kind` and `timeout` fall back to `'info'` and 5000
        when they are not given. `id` stands for the random string the source
        draws. A removal is scheduled only when the timeout is truthy, i.e.
        not 0. */
    method Add(title: string, description: string, kind: Option<Kind>, timeout: Option<int>, id: string)
      modifies this
      ensures var n := Notification(id, title, description,
                                    if kind.Some? then kind.value else Info,
                                    if timeout.Some? then timeout.value else DEFAULT_TIMEOUT);
        notifications == old(notifications) + [n]
      ensures var t := if timeout.Some? then timeout.value else DEFAULT_TIMEOUT;
        pending == old(pending) + (if t != 0 then [id] else [])
    {
      var k := if kind.Some? then kind.value else Info;
      var t := if timeout.Some? then timeout.value else DEFAULT_TIMEOUT;
      notifications := notifications + [Notification(id, title, description, k, t)];
      if t != 0 {
        pending := pending + [id];
      }
    }

    /** `remove(id)`: find the first entry with this id and splice it out. */
    method Remove(id: string)
      modifies this
      ensures notifications == RemoveFirst(old(notifications), id)
      ensures pending == old(pending)
    {
      var index := 0;
      while index < |notifications| && notifications[index].id != id
        invariant 0 <= index <= |notifications|
        invariant forall k :: 0 <= k < index ==> notifications[k].id != id
      {
        index := index + 1;
      }
      if index < |notifications| {
        RemoveFirstAt(notifications, id, index);
        notifications := notifications[..index] + notifications[index + 1..];
      } else {
        assert id !in Ids(notifications);
        RemoveFirstAbsent(notifications, id);
      }
    }

    /** The timer started for `pending[k]` fires and removes that id. */
    method FireTimer(k: nat)
      requires k < |pending|
      modifies this
      ensures notifications == RemoveFirst(old(notifications), old(pending[k]))
      ensures pending == old(pending[..k] + pending[k + 1..])
    {
      var id := pending[k];
      pending := pending[..k] + pending[k + 1..];
      Remove(id);
    }
  }
}
