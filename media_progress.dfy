/** The progress store (`useMediaProgress`): per media kind, an insertion-ordered
    table from media id to the last known playback position, persisted to
    local storage as a whole partition after every change. */
module MediaProgress {
  import opened Wrappers

  datatype MediaKind = Audio | Video | YouTube

  /** `Object.keys(STORAGE_KEYS)`, in declaration order. */
  const Kinds: seq<MediaKind> := [Audio, Video, YouTube]

  const COMPLETION_THRESHOLD: real := 0.9

  /** The local-storage key of each partition (`STORAGE_KEYS`). */
  function StorageKey(kind: MediaKind): string
  {
    match kind
    case Audio => "media_progress_audio"
    case Video => "media_progress_video"
    case YouTube => "media_progress_youtube"
  }

  lemma StorageKeysDistinct(k1: MediaKind, k2: MediaKind)
    requires k1 != k2
    ensures StorageKey(k1) != StorageKey(k2)
  {
    match k1
    case Audio => assert StorageKey(k1)[15] == 'a';
    case Video => assert StorageKey(k1)[15] == 'v';
    case YouTube => assert StorageKey(k1)[15] == 'y';
  }

  /** One `MediaProgress` record. `lastUpdated` is the ISO timestamp, taken
      as an opaque input. */
  datatype Progress = Progress(
    id: string,
    kind: MediaKind,
    currentTime: real,
    duration: real,
    lastUpdated: string,
    completed: bool)

  /** The write filter of `updateProgress`: the negation of its early return. */
  predicate Accepts(id: string, currentTime: real, duration: real)
  {
    id != "" && currentTime >= 0.0 && duration > 0.0
  }

  predicate IsCompleted(currentTime: real, duration: real)
  {
    duration > 0.0 && currentTime / duration >= COMPLETION_THRESHOLD
  }

  /** The 90% rule, free of division. */
  lemma CompletedIffNinetyPercent(currentTime: real, duration: real)
    requires duration > 0.0
    ensures IsCompleted(currentTime, duration) <==> 10.0 * currentTime >= 9.0 * duration
  {
    var q := currentTime / duration;
    assert currentTime == q * duration;
    if q >= 0.9 {
      assert 10.0 * currentTime == 10.0 * q * duration >= 9.0 * duration;
    } else {
      assert 10.0 * currentTime == 10.0 * q * duration < 9.0 * duration;
    }
  }

  /** The record `updateProgress` stores for an accepted write. */
  function MakeRecord(id: string, kind: MediaKind, currentTime: real, duration: real, now: string): (r: Progress)
    requires duration > 0.0
    ensures r.id == id && r.kind == kind && r.lastUpdated == now
    ensures r.currentTime == currentTime && r.duration == duration
    ensures r.completed <==> 10.0 * currentTime >= 9.0 * duration
  {
    CompletedIffNinetyPercent(currentTime, duration);
    Progress(id, kind, currentTime, duration, now, IsCompleted(currentTime, duration))
  }

  /** A partition: the records of one kind, in key-insertion order (the order
      `Object.values` reports for non-numeric keys). */
  type Partition = seq<Progress>

  predicate UniqueIds(p: Partition)
  {
    forall i, j :: 0 <= i < j < |p| ==> p[i].id != p[j].id
  }

  predicate WellFormedRecord(r: Progress, kind: MediaKind)
  {
    r.kind == kind && Accepts(r.id, r.currentTime, r.duration)
    && r.completed == IsCompleted(r.currentTime, r.duration)
  }

  /** What every partition written by `updateProgress` satisfies. */
  predicate WellFormed(p: Partition, kind: MediaKind)
  {
    UniqueIds(p) && forall i :: 0 <= i < |p| ==> WellFormedRecord(p[i], kind)
  }

  /** Position of the record keyed `id`. */
  function IndexOf(p: Partition, id: string): (r: Option<nat>)
    ensures r.Some? ==> r.value < |p| && p[r.value].id == id
    ensures r.Some? ==> forall j :: 0 <= j < r.value ==> p[j].id != id
    ensures r.None? ==> forall j :: 0 <= j < |p| ==> p[j].id != id
  {
    if p == [] then None
    else if p[0].id == id then Some(0)
    else match IndexOf(p[1..], id)
      case None => None
      case Some(i) => Some(i + 1)
  }

  /** `progress[type].value[id]`, absent as None. */
  function Lookup(p: Partition, id: string): Option<Progress>
  {
    match IndexOf(p, id)
    case None => None
    case Some(i) => Some(p[i])
  }

  /** `progress[type].value[id] = rec`: an existing key keeps its place,
      a new key goes last. */
  function Put(p: Partition, rec: Progress): Partition
  {
    match IndexOf(p, rec.id)
    case None => p + [rec]
    case Some(i) => p[i := rec]
  }

  /** `delete progress[type].value[id]`. */
  function Delete(p: Partition, id: string): (r: Partition)
    ensures forall x :: x in r <==> x in p && x.id != id
    ensures |r| <= |p|
  {
    if p == [] then []
    else if p[0].id == id then Delete(p[1..], id)
    else [p[0]] + Delete(p[1..], id)
  }

  /** `Object.values(partition).filter(item => item.completed == completed)`. */
  function Filter(p: Partition, completed: bool): (r: seq<Progress>)
    ensures forall x :: x in r <==> x in p && x.completed == completed
  {
    if p == [] then []
    else if p[0].completed == completed then [p[0]] + Filter(p[1..], completed)
    else Filter(p[1..], completed)
  }

  /** The first index holding `id` is what IndexOf reports. */
  lemma IndexOfFirst(p: Partition, id: string, i: nat)
    requires i < |p| && p[i].id == id
    requires forall j :: 0 <= j < i ==> p[j].id != id
    ensures IndexOf(p, id) == Some(i)
  {
  }

  /** Reading back a key just written gives the written record; other keys
      are unaffected. */
  lemma LookupPut(p: Partition, rec: Progress, id: string)
    ensures Lookup(Put(p, rec), id) == if id == rec.id then Some(rec) else Lookup(p, id)
  {
    var q := Put(p, rec);
    match IndexOf(p, rec.id)
    case None =>
      assert q == p + [rec];
      if id != rec.id {
        match IndexOf(p, id)
        case None =>
          assert IndexOf(q, id).None?;
        case Some(i) =>
          IndexOfFirst(q, id, i);
      } else {
        IndexOfFirst(q, id, |p|);
      }
    case Some(k) =>
      assert q == p[k := rec];
      if id != rec.id {
        match IndexOf(p, id)
        case None =>
          assert IndexOf(q, id).None?;
        case Some(i) =>
          IndexOfFirst(q, id, i);
      } else {
        IndexOfFirst(q, id, k);
      }
  }

  lemma LookupDelete(p: Partition, id: string, other: string)
    ensures Lookup(Delete(p, id), id).None?
    ensures other != id ==> Lookup(Delete(p, id), other) == Lookup(p, other)
  {
    if p != [] {
      LookupDelete(p[1..], id, other);
    }
  }

  lemma {:induction false} PutPreservesWellFormed(p: Partition, rec: Progress, kind: MediaKind)
    requires WellFormed(p, kind) && WellFormedRecord(rec, kind)
    ensures WellFormed(Put(p, rec), kind)
  {
  }

  lemma DeletePreservesWellFormed(p: Partition, id: string, kind: MediaKind)
    requires WellFormed(p, kind)
    ensures WellFormed(Delete(p, id), kind)
  {
  }

  /** The completed and in-progress lists split the partition: every record is
      in exactly one of them. */
  lemma {:induction false} CompletedInProgressSplit(p: Partition)
    ensures multiset(Filter(p, true)) + multiset(Filter(p, false)) == multiset(p)
    ensures forall x :: !(x in Filter(p, true) && x in Filter(p, false))
  {
    if p != [] {
      CompletedInProgressSplit(p[1..]);
      assert p == [p[0]] + p[1..];
    }
  }

  /** The persisted value of each storage key, abstracted to the partition
      its JSON text encodes. */
  class LocalStorage {
    var items: map<string, Partition>

    ghost predicate Valid()
      reads this
    {
      forall kind: MediaKind :: StorageKey(kind) in items ==> WellFormed(items[StorageKey(kind)], kind)
    }

    constructor ()
      ensures Valid() && items == map[]
    {
      items := map[];
    }
  }

  /** What `loadProgress` takes from storage for one kind: the saved partition,
      or an empty one when nothing is saved. */
  function Saved(items: map<string, Partition>, kind: MediaKind): Partition
  {
    if StorageKey(kind) in items then items[StorageKey(kind)] else []
  }

  /** One `useMediaProgress()` instance: its own in-memory partitions over the
      process-wide storage. */
  class ProgressStore {
    const storage: LocalStorage
    var audio: Partition
    var video: Partition
    var youtube: Partition

    function Part(kind: MediaKind): Partition
      reads this
    {
      match kind
      case Audio => audio
      case Video => video
      case YouTube => youtube
    }

    ghost predicate Valid()
      reads this, storage
    {
      storage.Valid() && forall kind: MediaKind :: WellFormed(Part(kind), kind)
    }

    /** Creating the store runs `loadProgress`. */
    constructor (storage: LocalStorage)
      requires storage.Valid()
      ensures Valid() && this.storage == storage
      ensures forall kind: MediaKind :: Part(kind) == Saved(storage.items, kind)
    {
      this.storage := storage;
      audio, video, youtube := [], [], [];
      new;
      LoadProgress();
    }

    method LoadProgress()
      requires Valid()
      modifies this
      ensures Valid()
      ensures forall kind: MediaKind :: Part(kind) == (if StorageKey(kind) in storage.items then storage.items[StorageKey(kind)] else old(Part(kind)))
    {
      var k := 0;
      while k < |Kinds|
        invariant 0 <= k <= |Kinds|
        invariant forall j :: 0 <= j < k ==> Part(Kinds[j]) == (if StorageKey(Kinds[j]) in storage.items then storage.items[StorageKey(Kinds[j])] else old(Part(Kinds[j])))
        invariant forall j :: k <= j < |Kinds| ==> Part(Kinds[j]) == old(Part(Kinds[j]))
      {
        var kind := Kinds[k];
        var key := StorageKey(kind);
        if key in storage.items {
          SetPart(kind, storage.items[key]);
        }
        k := k + 1;
      }
      forall kind: MediaKind
        ensures Part(kind) == (if StorageKey(kind) in storage.items then storage.items[StorageKey(kind)] else old(Part(kind)))
      {
        match kind
        case Audio => assert kind == Kinds[0];
        case Video => assert kind == Kinds[1];
        case YouTube => assert kind == Kinds[2];
      }
    }

    /** Replaces the in-memory partition of one kind. */
    method SetPart(kind: MediaKind, p: Partition)
      modifies this
      ensures Part(kind) == p
      ensures forall k :: k != kind ==> Part(k) == old(Part(k))
    {
      match kind
      case Audio => audio := p;
      case Video => video := p;
      case YouTube => youtube := p;
    }

    /** `saveProgress(type)`: the whole partition is written to its key. */
    method SaveProgress(kind: MediaKind)
      requires storage.Valid() && WellFormed(Part(kind), kind)
      modifies storage
      ensures storage.Valid()
      ensures storage.items == old(storage.items)[StorageKey(kind) := Part(kind)]
    {
      storage.items := storage.items[StorageKey(kind) := Part(kind)];
      forall k: MediaKind | StorageKey(k) in storage.items
        ensures WellFormed(storage.items[StorageKey(k)], k)
      {
        if k != kind {
          StorageKeysDistinct(k, kind);
        }
      }
    }

    method UpdateProgress(id: string, kind: MediaKind, currentTime: real, duration: real, now: string)
      requires Valid()
      modifies this, storage
      ensures Valid()
      ensures !Accepts(id, currentTime, duration) ==> unchanged(this, storage)
      ensures Accepts(id, currentTime, duration) ==>
        && Part(kind) == Put(old(Part(kind)), MakeRecord(id, kind, currentTime, duration, now))
        && storage.items == old(storage.items)[StorageKey(kind) := Part(kind)]
      ensures Accepts(id, currentTime, duration) ==>
        GetProgress(id, kind) == Some(MakeRecord(id, kind, currentTime, duration, now))
      ensures forall other :: other != id ==> GetProgress(other, kind) == old(GetProgress(other, kind))
      ensures forall k :: k != kind ==> Part(k) == old(Part(k))
    {
      if !Accepts(id, currentTime, duration) {
        return;
      }
      var rec := MakeRecord(id, kind, currentTime, duration, now);
      CompletedIffNinetyPercent(currentTime, duration);
      PutPreservesWellFormed(Part(kind), rec, kind);
      forall other ensures Lookup(Put(Part(kind), rec), other) == if other == id then Some(rec) else Lookup(Part(kind), other) {
        LookupPut(Part(kind), rec, other);
      }
      SetPart(kind, Put(Part(kind), rec));
      SaveProgress(kind);
    }

    /** `getProgress(id, type)`: the record stored under `id`, or none when
        no record of this kind carries it. */
    function GetProgress(id: string, kind: MediaKind): (r: Option<Progress>)
      reads this
      ensures r.Some? ==> r.value in Part(kind) && r.value.id == id
      ensures r.None? <==> forall x :: x in Part(kind) ==> x.id != id
    {
      Lookup(Part(kind), id)
    }

    method ClearProgress(id: string, kind: MediaKind)
      requires Valid()
      modifies this, storage
      ensures Valid()
      ensures Part(kind) == Delete(old(Part(kind)), id)
      ensures storage.items == old(storage.items)[StorageKey(kind) := Part(kind)]
      ensures GetProgress(id, kind).None?
      ensures forall other :: other != id ==> GetProgress(other, kind) == old(GetProgress(other, kind))
      ensures forall k :: k != kind ==> Part(k) == old(Part(k))
    {
      DeletePreservesWellFormed(Part(kind), id, kind);
      forall other ensures Lookup(Delete(Part(kind), id), other) == if other == id then None else Lookup(Part(kind), other) {
        LookupDelete(Part(kind), id, other);
      }
      SetPart(kind, Delete(Part(kind), id));
      SaveProgress(kind);
    }

    method ClearTypeProgress(kind: MediaKind)
      requires Valid()
      modifies this, storage
      ensures Valid()
      ensures Part(kind) == []
      ensures storage.items == old(storage.items)[StorageKey(kind) := []]
      ensures forall k :: k != kind ==> Part(k) == old(Part(k))
    {
      SetPart(kind, []);
      SaveProgress(kind);
    }

    /** `clearAllProgress()`: `clearTypeProgress` of each kind in turn, so each
        of the three keys is written with the empty partition and no other
        key is touched. */
    method ClearAllProgress()
      requires Valid()
      modifies this, storage
      ensures Valid()
      ensures forall kind: MediaKind :: Part(kind) == [] && Saved(storage.items, kind) == []
      ensures storage.items == old(storage.items)[StorageKey(Audio) := []][StorageKey(Video) := []][StorageKey(YouTube) := []]
      ensures forall key :: key !in StorageKeys() ==> (key in storage.items <==> key in old(storage.items))
    {
      var k := 0;
      while k < |Kinds|
        invariant 0 <= k <= |Kinds|
        invariant Valid()
        invariant forall j :: 0 <= j < k ==> Part(Kinds[j]) == [] && Saved(storage.items, Kinds[j]) == []
        invariant storage.items == ClearKeys(old(storage.items), Kinds[..k])
      {
        ClearTypeProgress(Kinds[k]);
        assert Kinds[..k + 1][..k] == Kinds[..k];
        k := k + 1;
      }
      assert Kinds[..3] == [Audio, Video, YouTube];
      assert Kinds[..3][..2] == [Audio, Video];
      assert Kinds[..3][..2][..1] == [Audio];
      forall kind: MediaKind ensures Part(kind) == [] && Saved(storage.items, kind) == [] {
        match kind
        case Audio => assert kind == Kinds[0];
        case Video => assert kind == Kinds[1];
        case YouTube => assert kind == Kinds[2];
      }
    }

    /** `getCompletedMedia(type)`: exactly the completed records of the kind. */
    function GetCompletedMedia(kind: MediaKind): (r: seq<Progress>)
      reads this
      ensures forall x :: x in r <==> x in Part(kind) && x.completed
    {
      Filter(Part(kind), true)
    }

    /** `getInProgressMedia(type)`: exactly the records of the kind that are
        not completed. */
    function GetInProgressMedia(kind: MediaKind): (r: seq<Progress>)
      reads this
      ensures forall x :: x in r <==> x in Part(kind) && !x.completed
    {
      Filter(Part(kind), false)
    }
  }

  /** The storage after the partitions of `kinds` were emptied, in order. */
  function ClearKeys(items: map<string, Partition>, kinds: seq<MediaKind>): map<string, Partition>
    decreases |kinds|
  {
    if kinds == [] then items
    else ClearKeys(items, kinds[..|kinds| - 1])[StorageKey(kinds[|kinds| - 1]) := []]
  }

  function StorageKeys(): set<string>
  {
    set kind: MediaKind | true :: StorageKey(kind)
  }

  /** The same id under two kinds gives two independent records. */
  method PartitionIsolation(now: string) returns (audio: Option<Progress>, video: Option<Progress>)
    ensures audio == Some(Progress("X", Audio, 5.0, 10.0, now, false))
    ensures video == Some(Progress("X", Video, 1.0, 2.0, now, false))
  {
    var storage := new LocalStorage();
    var store := new ProgressStore(storage);
    store.UpdateProgress("X", Audio, 5.0, 10.0, now);
    store.UpdateProgress("X", Video, 1.0, 2.0, now);
    audio := store.GetProgress("X", Audio);
    video := store.GetProgress("X", Video);
  }
}
