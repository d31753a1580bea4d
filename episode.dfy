/** The episode field mapping of `composables/useEpisode.ts`: the camelCase
    episode of the front end against the snake_case row of the `episodes`
    table. A property that is absent reads as `undefined`, so an episode
    record holds `Undefined` for each property it does not carry. The
    database calls are inputs. */
module Episode {
  import opened Wrappers

  datatype Value = Undefined | Null | Str(s: string) | Bool(b: bool)

  /** JavaScript truthiness. */
  predicate Truthy(v: Value)
  {
    (v.Str? && v.s != "") || v == Bool(true)
  }

  predicate Nullish(v: Value)
  {
    v == Undefined || v == Null
  }

  /** The fields of an episode, named as the front end names them. */
  datatype Field =
    | Id | Title | Description | AudioUrl | VideoUrl | ImageUrl | PublishedAt | IsPremium
    | PodcastId | AuthorId | Status | Transcript | Slug | CreatedAt | UpdatedAt

  /** The column that stores each field. */
  function ColumnName(f: Field): string
  {
    match f
    case Id => "id"
    case Title => "title"
    case Description => "description"
    case AudioUrl => "audio_url"
    case VideoUrl => "video_url"
    case ImageUrl => "image_url"
    case PublishedAt => "published_at"
    case IsPremium => "is_premium"
    case PodcastId => "podcast_id"
    case AuthorId => "author_id"
    case Status => "status"
    case Transcript => "transcript"
    case Slug => "slug"
    case CreatedAt => "created_at"
    case UpdatedAt => "updated_at"
  }

  /** The front-end episode (the `Episode` interface, or a `Partial` of it). */
  datatype Episode = Episode(
    id: Value, title: Value, description: Value, audioUrl: Value, videoUrl: Value,
    imageUrl: Value, publishedAt: Value, isPremium: Value, podcastId: Value, authorId: Value,
    status: Value, transcript: Value, slug: Value, createdAt: Value, updatedAt: Value)

  /** A row of the `episodes` table as `select('*')` returns it. */
  datatype Row = Row(
    id: Value, title: Value, description: Value, audio_url: Value, video_url: Value,
    image_url: Value, published_at: Value, is_premium: Value, podcast_id: Value, author_id: Value,
    status: Value, transcript: Value, slug: Value, created_at: Value, updated_at: Value)

  /** Reading a field of the front-end episode. */
  function Prop(e: Episode, f: Field): Value
  {
    match f
    case Id => e.id
    case Title => e.title
    case Description => e.description
    case AudioUrl => e.audioUrl
    case VideoUrl => e.videoUrl
    case ImageUrl => e.imageUrl
    case PublishedAt => e.publishedAt
    case IsPremium => e.isPremium
    case PodcastId => e.podcastId
    case AuthorId => e.authorId
    case Status => e.status
    case Transcript => e.transcript
    case Slug => e.slug
    case CreatedAt => e.createdAt
    case UpdatedAt => e.updatedAt
  }

  /** Reading the column of a field from a row. */
  function Col(r: Row, f: Field): Value
  {
    match f
    case Id => r.id
    case Title => r.title
    case Description => r.description
    case AudioUrl => r.audio_url
    case VideoUrl => r.video_url
    case ImageUrl => r.image_url
    case PublishedAt => r.published_at
    case IsPremium => r.is_premium
    case PodcastId => r.podcast_id
    case AuthorId => r.author_id
    case Status => r.status
    case Transcript => r.transcript
    case Slug => r.slug
    case CreatedAt => r.created_at
    case UpdatedAt => r.updated_at
  }

  /** The camelCase view of the object
      `{ ...data, audioUrl: data.audio_url, ..., isPremium: data.is_premium }`:
      the spread brings `id`, `title`, `description`, `status`, `transcript`
      and `slug` under their own names, and the nine renamed properties are
      set from their columns. (The snake_case columns stay on the object as
      well.) */
  function ToCamel(data: Row): (e: Episode)
    ensures forall f :: Prop(e, f) == Col(data, f)
  {
    Episode(data.id, data.title, data.description, data.audio_url, data.video_url,
            data.image_url, data.published_at, data.is_premium, data.podcast_id, data.author_id,
            data.status, data.transcript, data.slug, data.created_at, data.updated_at)
  }

  /** The fetched object, to which `fetchEpisode` adds the camelCase
      properties in place. Before that, the nine renamed properties are
      absent. */
  class FetchedRow {
    const columns: Row
    var audioUrl: Value
    var videoUrl: Value
    var imageUrl: Value
    var publishedAt: Value
    var podcastId: Value
    var authorId: Value
    var createdAt: Value
    var updatedAt: Value
    var isPremium: Value

    constructor (columns: Row)
      ensures this.columns == columns
      ensures audioUrl == videoUrl == imageUrl == publishedAt == podcastId == Undefined
      ensures authorId == createdAt == updatedAt == isPremium == Undefined
    {
      this.columns := columns;
      audioUrl, videoUrl, imageUrl, publishedAt, podcastId := Undefined, Undefined, Undefined, Undefined, Undefined;
      authorId, createdAt, updatedAt, isPremium := Undefined, Undefined, Undefined, Undefined;
    }

    /** How the object reads under the front-end property names. */
    function View(): Episode
      reads this
    {
      Episode(columns.id, columns.title, columns.description, audioUrl, videoUrl,
              imageUrl, publishedAt, isPremium, podcastId, authorId,
              columns.status, columns.transcript, columns.slug, createdAt, updatedAt)
    }

    /** The nine assignments `episode.audioUrl = episode.audio_url`, ... */
    method CamelizeInPlace()
      modifies this
      ensures View() == ToCamel(columns)
      ensures forall f :: Prop(View(), f) == Col(columns, f)
    {
      audioUrl := columns.audio_url;
      videoUrl := columns.video_url;
      imageUrl := columns.image_url;
      publishedAt := columns.published_at;
      podcastId := columns.podcast_id;
      authorId := columns.author_id;
      createdAt := columns.created_at;
      updatedAt := columns.updated_at;
      isPremium := columns.is_premium;
    }
  }

  /** What the database hands back: a row, or an error. */
  datatype DbReply = Rows(row: Row) | DbError(message: string)

  /** `fetchEpisode(id)`: the row is converted in place when there is one; a
      query error is thrown afterwards; otherwise the row (possibly none) is
      returned. */
  method FetchEpisode(data: FetchedRow?, error: Option<string>) returns (r: Result<FetchedRow?>)
    modifies data
    ensures data != null ==> data.View() == ToCamel(data.columns)
    ensures error.Some? ==> r == Err(error.value)
    ensures error.None? ==> r == Ok(data)
  {
    if data != null {
      data.CamelizeInPlace();
    }
    if error.Some? {
      return Err(error.value);
    }
    return Ok(data);
  }

  /** The eleven fields an update may carry: all but the id, the author and
      the timestamps. */
  predicate Updatable(f: Field)
  {
    !(f.Id? || f.AuthorId? || f.CreatedAt? || f.UpdatedAt?)
  }

  /** The updatable fields in the order the source assigns them. */
  function FieldAt(i: nat): (f: Field)
    requires i < 11
    ensures Updatable(f)
  {
    if i == 0 then Title else if i == 1 then Description else if i == 2 then AudioUrl
    else if i == 3 then VideoUrl else if i == 4 then ImageUrl else if i == 5 then PublishedAt
    else if i == 6 then IsPremium else if i == 7 then PodcastId else if i == 8 then Status
    else if i == 9 then Transcript else Slug
  }

  /** The position of each updatable field in that order. */
  function Order(f: Field): (i: nat)
    ensures Updatable(f) ==> i < 11 && FieldAt(i) == f
  {
    match f
    case Title => 0
    case Description => 1
    case AudioUrl => 2
    case VideoUrl => 3
    case ImageUrl => 4
    case PublishedAt => 5
    case IsPremium => 6
    case PodcastId => 7
    case Status => 8
    case Transcript => 9
    case Slug => 10
    case _ => 11
  }

  /** An object sent to the table: key `f` is the column `ColumnName(f)`. */
  type Record = map<Field, Value>

  const NOT_LOGGED_IN: string := "User must be logged in to create an episode"

  /** The `dbEpisode` literal of `createEpisode`: `is_premium` is never
      null or undefined and `status` never falsy, the given values being kept
      otherwise, and the author is the signed-in user. */
  function CreateRecord(userId: string, ep: Episode): (rec: Record)
    ensures IsPremium in rec && !Nullish(rec[IsPremium])
    ensures !Nullish(ep.isPremium) ==> rec[IsPremium] == ep.isPremium
    ensures Nullish(ep.isPremium) ==> rec[IsPremium] == Bool(false)
    ensures Status in rec && Truthy(rec[Status])
    ensures Truthy(ep.status) ==> rec[Status] == ep.status
    ensures !Truthy(ep.status) ==> rec[Status] == Str("draft")
    ensures AuthorId in rec && rec[AuthorId] == Str(userId)
  {
    map[
      Title := ep.title,
      Description := ep.description,
      AudioUrl := ep.audioUrl,
      VideoUrl := ep.videoUrl,
      ImageUrl := ep.imageUrl,
      PublishedAt := ep.publishedAt,
      IsPremium := if Nullish(ep.isPremium) then Bool(false) else ep.isPremium,
      PodcastId := ep.podcastId,
      Status := if Truthy(ep.status) then ep.status else Str("draft"),
      AuthorId := Str(userId),
      Transcript := ep.transcript,
      Slug := ep.slug]
  }

  /** The record has a column for each of the eleven fields an update may
      carry and for the author, and no other. */
  lemma CreateRecordKeys(userId: string, ep: Episode)
    ensures forall f :: f in CreateRecord(userId, ep) <==> Updatable(f) || f == AuthorId
  {
  }

  /** The fields without a default are copied as given, `undefined` included. */
  lemma CreateRecordCopies(userId: string, ep: Episode)
    ensures forall f :: Updatable(f) && f != IsPremium && f != Status ==> CreateRecord(userId, ep)[f] == Prop(ep, f)
  {
  }

  /** `createEpisode(episode)`: no signed-in user fails before anything is
      built or sent; otherwise the record is inserted and the stored row comes
      back converted. */
  function CreateEpisode(userId: Option<string>, ep: Episode, insert: Record -> DbReply): (r: Result<Episode>)
    ensures userId.None? ==> r == Err(NOT_LOGGED_IN)
    ensures r.Ok? ==> userId.Some? && insert(CreateRecord(userId.value, ep)).Rows?
  {
    if userId.None? then Err(NOT_LOGGED_IN)
    else match insert(CreateRecord(userId.value, ep))
      case DbError(m) => Err(m)
      case Rows(row) => Ok(ToCamel(row))
  }

  /** The row holds what the record sent, column by column. */
  predicate Stores(row: Row, rec: Record)
  {
    forall f :: f in rec ==> Col(row, f) == rec[f]
  }

  /** When the database stores the record as sent, the created episode comes
      back with the defaults filled in: not premium unless said so, a draft
      unless a status was given, and written by the signed-in user; every
      other field reads back as given. */
  lemma CreateDefaults(userId: string, ep: Episode, insert: Record -> DbReply)
    requires insert(CreateRecord(userId, ep)).Rows?
    requires Stores(insert(CreateRecord(userId, ep)).row, CreateRecord(userId, ep))
    ensures CreateEpisode(Some(userId), ep, insert).Ok?
    ensures CreateEpisode(Some(userId), ep, insert).value.isPremium ==
      if Nullish(ep.isPremium) then Bool(false) else ep.isPremium
    ensures CreateEpisode(Some(userId), ep, insert).value.status ==
      if Truthy(ep.status) then ep.status else Str("draft")
    ensures CreateEpisode(Some(userId), ep, insert).value.authorId == Str(userId)
    ensures forall f :: Updatable(f) && f != IsPremium && f != Status ==>
      Prop(CreateEpisode(Some(userId), ep, insert).value, f) == Prop(ep, f)
  {
    CreateRecordKeys(userId, ep);
    CreateRecordCopies(userId, ep);
  }

  /** The `dbUpdates` of `updateEpisode`: the column of each of the eleven
      fields whose value is not `undefined`. */
  function Updates(ep: Episode): Record
  {
    UpdatesBefore(ep, 11)
  }

  /** The payload after the first `n` conditional assignments. */
  function UpdatesBefore(ep: Episode, n: nat): Record
  {
    map f | Updatable(f) && Order(f) < n && Prop(ep, f) != Undefined :: Prop(ep, f)
  }

  /** The next conditional assignment adds the next field when it is not
      `undefined`, and leaves the payload alone otherwise. */
  lemma UpdatesBeforeNext(ep: Episode, n: nat)
    requires n < 11
    ensures UpdatesBefore(ep, n + 1) ==
      if Prop(ep, FieldAt(n)) != Undefined then UpdatesBefore(ep, n)[FieldAt(n) := Prop(ep, FieldAt(n))]
      else UpdatesBefore(ep, n)
  {
    forall f | Updatable(f) && Order(f) == n
      ensures f == FieldAt(n)
    {
    }
  }

  /** The update payload has a column exactly for each of the eleven fields
      that is not `undefined` (so `null` goes through), with that value, and
      no other key: never the id, the author or the timestamps. */
  lemma UpdatePayloadShape(ep: Episode)
    ensures forall f :: f in Updates(ep) <==> Updatable(f) && Prop(ep, f) != Undefined
    ensures forall f :: f in Updates(ep) ==> Updates(ep)[f] == Prop(ep, f)
    ensures Id !in Updates(ep) && AuthorId !in Updates(ep) && CreatedAt !in Updates(ep) && UpdatedAt !in Updates(ep)
  {
  }

  /** The eleven conditional assignments of `updateEpisode`, one field per
      step in the order the source writes them. */
  method BuildUpdates(ep: Episode) returns (dbUpdates: Record)
    ensures dbUpdates == Updates(ep)
  {
    dbUpdates := map[];
    for i := 0 to 11
      invariant dbUpdates == UpdatesBefore(ep, i)
    {
      var field := FieldAt(i);
      UpdatesBeforeNext(ep, i);
      if Prop(ep, field) != Undefined {
        dbUpdates := dbUpdates[field := Prop(ep, field)];
      }
    }
  }

  /** `updateEpisode(id, episode)`: the payload is sent, a database error is
      thrown, and the returned row comes back converted. */
  function UpdateEpisode(id: string, ep: Episode, update: (string, Record) -> DbReply): (r: Result<Episode>)
    ensures r.Err? <==> update(id, Updates(ep)).DbError?
  {
    match update(id, Updates(ep))
    case DbError(m) => Err(m)
    case Rows(row) => Ok(ToCamel(row))
  }

  /** Renaming back undoes renaming forth: when the database stores the
      payload, every field the update set reads back from the returned episode
      with the value that was sent. */
  lemma UpdateReadsBack(id: string, ep: Episode, update: (string, Record) -> DbReply)
    requires update(id, Updates(ep)).Rows?
    requires Stores(update(id, Updates(ep)).row, Updates(ep))
    ensures UpdateEpisode(id, ep, update).Ok?
    ensures forall f :: Updatable(f) && Prop(ep, f) != Undefined ==>
      Prop(UpdateEpisode(id, ep, update).value, f) == Prop(ep, f)
  {
    UpdatePayloadShape(ep);
  }
}
