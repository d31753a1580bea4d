/** The `useTwitterCard` composable: `updateTwitterCard` assembles the list of
    `twitter:*` meta tags that it hands to the page head. */
module TwitterCard {
  import opened Wrappers
  import opened Decimal

  datatype Tag = Tag(name: string, content: string)

  /** The optional `player` option; `audio` is the optional stream URL. */
  datatype PlayerOptions = PlayerOptions(url: string, width: int, height: int, audio: Option<string>)

  const TITLE := "twitter:title"
  const DESCRIPTION := "twitter:description"
  const IMAGE := "twitter:image"
  const CARD := "twitter:card"
  const PLAYER := "twitter:player"
  const PLAYER_WIDTH := "twitter:player:width"
  const PLAYER_HEIGHT := "twitter:player:height"
  const STREAM := "twitter:player:stream"
  const STREAM_TYPE := "twitter:player:stream:content_type"

  /** An optional string option is truthy when it is given and non-empty. */
  predicate Truthy(s: Option<string>)
  {
    s.Some? && s.value != ""
  }

  /** The tags every card has, followed by the image when there is one. */
  function HeadTags(title: string, description: string, image: Option<string>): seq<Tag>
  {
    [Tag(TITLE, title), Tag(DESCRIPTION, description)]
      + (if Truthy(image) then [Tag(IMAGE, image.value)] else [])
  }

  /** The tags that pick the card type: a player card with its dimensions and
      optional audio stream, or a large-image summary card. */
  function CardSection(player: Option<PlayerOptions>): seq<Tag>
  {
    match player
    case None => [Tag(CARD, "summary_large_image")]
    case Some(p) =>
      [Tag(CARD, "player"), Tag(PLAYER, p.url),
       Tag(PLAYER_WIDTH, IntToString(p.width)), Tag(PLAYER_HEIGHT, IntToString(p.height))]
      + (if Truthy(p.audio) then [Tag(STREAM, p.audio.value), Tag(STREAM_TYPE, "audio/mpeg")] else [])
  }

  /** The meta list `updateTwitterCard` hands to the page head. */
  function CardTags(title: string, description: string, image: Option<string>, player: Option<PlayerOptions>): seq<Tag>
  {
    HeadTags(title, description, image) + CardSection(player)
  }

  /** `updateTwitterCard(options)`: the literal list, then the pushes. The
      list is returned instead of being passed to `useHead`. */
  method UpdateTwitterCard(title: string, description: string, image: Option<string>, player: Option<PlayerOptions>)
    returns (meta: seq<Tag>)
    ensures meta == CardTags(title, description, image, player)
  {
    meta := [Tag(TITLE, title), Tag(DESCRIPTION, description)]
      + (if Truthy(image) then [Tag(IMAGE, image.value)] else []);
    if player.Some? {
      var p := player.value;
      meta := meta + [Tag(CARD, "player"), Tag(PLAYER, p.url),
                      Tag(PLAYER_WIDTH, IntToString(p.width)), Tag(PLAYER_HEIGHT, IntToString(p.height))];
      if Truthy(p.audio) {
        meta := meta + [Tag(STREAM, p.audio.value), Tag(STREAM_TYPE, "audio/mpeg")];
      }
    } else {
      meta := meta + [Tag(CARD, "summary_large_image")];
    }
  }

  /** No two tags of a list share a name. */
  predicate DistinctNames(meta: seq<Tag>)
  {
    forall i, j :: 0 <= i < j < |meta| ==> meta[i].name != meta[j].name
  }

  /** Some tag of the list has this name. */
  predicate Named(meta: seq<Tag>, name: string)
  {
    exists t :: t in meta && t.name == name
  }

  lemma DistinctNamesAppend(a: seq<Tag>, b: seq<Tag>)
    requires DistinctNames(a) && DistinctNames(b)
    requires forall i, j :: 0 <= i < |a| && 0 <= j < |b| ==> a[i].name != b[j].name
    ensures DistinctNames(a + b)
  {
  }

  /** No tag name appears twice: in particular the card type is set once. */
  lemma CardTagsDistinct(title: string, description: string, image: Option<string>, player: Option<PlayerOptions>)
    ensures DistinctNames(CardTags(title, description, image, player))
  {
    var head := HeadTags(title, description, image);
    var card := CardSection(player);
    if player.Some? {
      var p := player.value;
      var top := [Tag(CARD, "player"), Tag(PLAYER, p.url),
                  Tag(PLAYER_WIDTH, IntToString(p.width)), Tag(PLAYER_HEIGHT, IntToString(p.height))];
      var stream := if Truthy(p.audio) then [Tag(STREAM, p.audio.value), Tag(STREAM_TYPE, "audio/mpeg")] else [];
      DistinctNamesAppend(top, stream);
    }
    DistinctNamesAppend(head, card);
  }

  /** In a list without repeated names a name determines its tag. */
  lemma NameDeterminesTag(meta: seq<Tag>, t: Tag, u: Tag)
    requires DistinctNames(meta)
    requires t in meta && u in meta && t.name == u.name
    ensures t == u
  {
    var i :| 0 <= i < |meta| && meta[i] == t;
    var j :| 0 <= j < |meta| && meta[j] == u;
    assert !(i < j) && !(j < i);
  }

  lemma NamedAppend(a: seq<Tag>, b: seq<Tag>, name: string)
    ensures Named(a + b, name) <==> Named(a, name) || Named(b, name)
  {
    if Named(a, name) {
      var t :| t in a && t.name == name;
      assert t in a + b;
    }
    if Named(b, name) {
      var t :| t in b && t.name == name;
      assert t in a + b;
    }
  }

  lemma HeadNamed(title: string, description: string, image: Option<string>, name: string)
    ensures Named(HeadTags(title, description, image), name) <==>
      name == TITLE || name == DESCRIPTION || (Truthy(image) && name == IMAGE)
  {
    var head := HeadTags(title, description, image);
    if name == TITLE {
      assert Tag(TITLE, title) in head;
    } else if name == DESCRIPTION {
      assert Tag(DESCRIPTION, description) in head;
    } else if Truthy(image) && name == IMAGE {
      assert Tag(IMAGE, image.value) in head;
    }
  }

  lemma CardSectionNamed(player: Option<PlayerOptions>, name: string)
    ensures Named(CardSection(player), name) <==>
      || name == CARD
      || (player.Some? && (name == PLAYER || name == PLAYER_WIDTH || name == PLAYER_HEIGHT))
      || (player.Some? && Truthy(player.value.audio) && (name == STREAM || name == STREAM_TYPE))
  {
    var card := CardSection(player);
    match player
    case None =>
      if name == CARD {
        assert Tag(CARD, "summary_large_image") in card;
      }
    case Some(p) =>
      var top := [Tag(CARD, "player"), Tag(PLAYER, p.url),
                  Tag(PLAYER_WIDTH, IntToString(p.width)), Tag(PLAYER_HEIGHT, IntToString(p.height))];
      var stream := if Truthy(p.audio) then [Tag(STREAM, p.audio.value), Tag(STREAM_TYPE, "audio/mpeg")] else [];
      NamedAppend(top, stream, name);
      PlayerTopNamed(top, name);
      if Truthy(p.audio) {
        StreamNamed(stream, name);
      }
  }

  lemma PlayerTopNamed(top: seq<Tag>, name: string)
    requires |top| == 4
    requires top[0].name == CARD && top[1].name == PLAYER
    requires top[2].name == PLAYER_WIDTH && top[3].name == PLAYER_HEIGHT
    ensures Named(top, name) <==>
      name == CARD || name == PLAYER || name == PLAYER_WIDTH || name == PLAYER_HEIGHT
  {
    if name == CARD {
      assert top[0] in top;
    } else if name == PLAYER {
      assert top[1] in top;
    } else if name == PLAYER_WIDTH {
      assert top[2] in top;
    } else if name == PLAYER_HEIGHT {
      assert top[3] in top;
    }
  }

  lemma StreamNamed(stream: seq<Tag>, name: string)
    requires |stream| == 2 && stream[0].name == STREAM && stream[1].name == STREAM_TYPE
    ensures Named(stream, name) <==> name == STREAM || name == STREAM_TYPE
  {
    if name == STREAM {
      assert stream[0] in stream;
    } else if name == STREAM_TYPE {
      assert stream[1] in stream;
    }
  }

  /** Which optional tags are present: the image exactly when it is truthy,
      the player tags exactly when a player is given, and the stream tags
      exactly when that player has a truthy audio URL. */
  lemma CardTagsPresence(title: string, description: string, image: Option<string>, player: Option<PlayerOptions>)
    ensures var m := CardTags(title, description, image, player);
      && (Named(m, IMAGE) <==> Truthy(image))
      && (Named(m, PLAYER) <==> player.Some?)
      && (Named(m, PLAYER_WIDTH) <==> player.Some?)
      && (Named(m, PLAYER_HEIGHT) <==> player.Some?)
      && (Named(m, STREAM) <==> player.Some? && Truthy(player.value.audio))
      && (Named(m, STREAM_TYPE) <==> player.Some? && Truthy(player.value.audio))
  {
    var head := HeadTags(title, description, image);
    var card := CardSection(player);
    forall name | name in [IMAGE, PLAYER, PLAYER_WIDTH, PLAYER_HEIGHT, STREAM, STREAM_TYPE]
      ensures Named(head + card, name) <==> Named(head, name) || Named(card, name)
      ensures Named(head, name) <==> name == TITLE || name == DESCRIPTION || (Truthy(image) && name == IMAGE)
    {
      NamedAppend(head, card, name);
      HeadNamed(title, description, image, name);
    }
    CardSectionNamed(player, IMAGE);
    CardSectionNamed(player, PLAYER);
    CardSectionNamed(player, PLAYER_WIDTH);
    CardSectionNamed(player, PLAYER_HEIGHT);
    CardSectionNamed(player, STREAM);
    CardSectionNamed(player, STREAM_TYPE);
  }

  /** The contents of the tags that are present; the list opens with the
      title and then the description. */
  lemma CardTagsContents(title: string, description: string, image: Option<string>, player: Option<PlayerOptions>)
    ensures var m := CardTags(title, description, image, player);
      && |m| >= 3 && m[0] == Tag(TITLE, title) && m[1] == Tag(DESCRIPTION, description)
      && Tag(CARD, if player.Some? then "player" else "summary_large_image") in m
      && (Truthy(image) ==> Tag(IMAGE, image.value) in m)
      && (player.Some? ==>
            && Tag(PLAYER, player.value.url) in m
            && Tag(PLAYER_WIDTH, IntToString(player.value.width)) in m
            && Tag(PLAYER_HEIGHT, IntToString(player.value.height)) in m)
      && (player.Some? && Truthy(player.value.audio) ==>
            && Tag(STREAM, player.value.audio.value) in m
            && Tag(STREAM_TYPE, "audio/mpeg") in m)
  {
  }

  /** Every `twitter:card` tag of the list names the same card type: a
      player card when a player is given, a large-image summary otherwise. */
  lemma CardTypeOnce(title: string, description: string, image: Option<string>, player: Option<PlayerOptions>)
    ensures var m := CardTags(title, description, image, player);
      forall t :: t in m && t.name == CARD ==>
        t.content == if player.Some? then "player" else "summary_large_image"
  {
    var m := CardTags(title, description, image, player);
    var expected := Tag(CARD, if player.Some? then "player" else "summary_large_image");
    CardTagsDistinct(title, description, image, player);
    CardTagsContents(title, description, image, player);
    forall t | t in m && t.name == CARD
      ensures t == expected
    {
      NameDeterminesTag(m, t, expected);
    }
  }
}
