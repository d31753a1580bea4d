/** The `useToast` composable: a toast list shared under the state key
    `'toasts'`, and an id counter that each call of `useToast()` starts afresh. */
module Toasts {

  datatype Color = Green | Red | Blue | Yellow

  datatype Toast = Toast(id: int, title: string, description: string, color: Color)

  /** How long a toast stays before its removal fires, in milliseconds. */
  const TOAST_LIFETIME := 5000

  /** `toasts.filter(t => t.id !== id)`. */
  function WithoutId(s: seq<Toast>, id: int): seq<Toast>
  {
    if s == [] then []
    else WithoutId(s[..|s| - 1], id) + (if s[|s| - 1].id != id then [s[|s| - 1]] else [])
  }

  /** Filtering distributes over concatenation, so the kept toasts stay in
      their original order. */
  lemma {:induction false} WithoutIdAppend(a: seq<Toast>, b: seq<Toast>, id: int)
    ensures WithoutId(a + b, id) == WithoutId(a, id) + WithoutId(b, id)
    decreases |b|
  {
    if b == [] {
      assert a + b == a;
    } else {
      var c := a + b;
      assert c[..|c| - 1] == a + b[..|b| - 1];
      WithoutIdAppend(a, b[..|b| - 1], id);
    }
  }

  /** Exactly the toasts whose id differs survive: none carrying `id` is
      left, and every other toast is kept. */
  lemma {:induction false} WithoutIdMembers(s: seq<Toast>, id: int)
    ensures forall t :: t in WithoutId(s, id) <==> t in s && t.id != id
  {
    if s != [] {
      WithoutIdMembers(s[..|s| - 1], id);
      assert s == s[..|s| - 1] + [s[|s| - 1]];
    }
  }

  /** A removal of an id that no toast carries changes nothing. */
  lemma {:induction false} WithoutIdAbsent(s: seq<Toast>, id: int)
    requires forall k :: 0 <= k < |s| ==> s[k].id != id
    ensures WithoutId(s, id) == s
  {
    if s != [] {
      WithoutIdAbsent(s[..|s| - 1], id);
    }
  }

  /** Two toasts with equal ids, such as the first toasts of two instances,
      are dropped by a single removal. */
  lemma EqualIdsRemovedTogether(s: seq<Toast>, t1: Toast, t2: Toast)
    requires t1.id == t2.id
    ensures WithoutId(s + [t1, t2], t1.id) == WithoutId(s, t1.id)
  {
    WithoutIdAppend(s, [t1, t2], t1.id);
    WithoutIdAppend([t1], [t2], t1.id);
    assert [t1] + [t2] == [t1, t2];
    assert [t1][..0] == [];
    assert [t2][..0] == [];
  }

  /** The shared `toasts` state. `pending` holds the ids whose five-second
      removal has been scheduled and has not fired yet. */
  class ToastStore {
    var toasts: seq<Toast>
    var pending: seq<int>

    constructor()
      ensures toasts == [] && pending == []
    {
      toasts := [];
      pending := [];
    }

    /** `remove(id)`: keep every toast whose id differs. */
    method Remove(id: int)
      modifies this
      ensures toasts == WithoutId(old(toasts), id)
      ensures pending == old(pending)
    {
      var kept := [];
      for i := 0 to |toasts|
        invariant kept == WithoutId(toasts[..i], id)
      {
        assert toasts[..i + 1][..i] == toasts[..i];
        if toasts[i].id != id {
          kept := kept + [toasts[i]];
        }
      }
      assert toasts[..|toasts|] == toasts;
      toasts := kept;
    }

    /** The removal scheduled for `pending[k]` fires. */
    method FireTimer(k: nat)
      requires k < |pending|
      modifies this
      ensures toasts == WithoutId(old(toasts), old(pending[k]))
      ensures pending == old(pending[..k] + pending[k + 1..])
    {
      var id := pending[k];
      pending := pending[..k] + pending[k + 1..];
      Remove(id);
    }
  }

  /** One `useToast()` call: the shared store and its own counter, which
      starts at 0. `issued` records the ids this instance has handed out. */
  class ToastInstance {
    const store: ToastStore
    var id: int
    ghost var issued: seq<int>

    /** The counter equals the number of toasts added so far, and this
        instance's ids are 0, 1, 2, … in order. */
    ghost predicate Valid()
      reads this
    {
      |issued| == id && forall k :: 0 <= k < |issued| ==> issued[k] == k
    }

    constructor(store: ToastStore)
      ensures this.store == store && id == 0 && issued == []
      ensures Valid()
    {
      this.store := store;
      id := 0;
      issued := [];
    }

    /** `add(toast)`: the new toast takes the counter's value, which is then
        incremented, and exactly one removal of that id is scheduled. */
    method Add(title: string, description: string, color: Color)
      requires Valid()
      modifies this, store
      ensures Valid()
      ensures store.toasts == old(store.toasts) + [Toast(old(id), title, description, color)]
      ensures store.pending == old(store.pending) + [old(id)]
      ensures id == old(id) + 1
      ensures issued == old(issued) + [old(id)]
    {
      store.toasts := store.toasts + [Toast(id, title, description, color)];
      store.pending := store.pending + [id];
      issued := issued + [id];
      id := id + 1;
    }

    /** `remove(id)` of this instance acts on the shared list. */
    method Remove(toastId: int)
      modifies store
      ensures store.toasts == WithoutId(old(store.toasts), toastId)
      ensures store.pending == old(store.pending)
    {
      store.Remove(toastId);
    }
  }

  /** Two `useToast()` calls over the same store each start their counter at
      0, so their first toasts carry the same id. */
  method TwoInstancesShareIds(store: ToastStore, first: Toast, second: Toast)
    returns (a: ToastInstance, b: ToastInstance)
    modifies store
    ensures a.store == store && b.store == store
    ensures store.toasts == old(store.toasts) + [first.(id := 0), second.(id := 0)]
    ensures store.pending == old(store.pending) + [0, 0]
  {
    a := new ToastInstance(store);
    b := new ToastInstance(store);
    a.Add(first.title, first.description, first.color);
    b.Add(second.title, second.description, second.color);
  }
}
