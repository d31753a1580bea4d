/** The Twitter card of an episode page, as `config/twitter.ts` builds it
    from the site's fixed settings. */
module TwitterConfig {
  import opened Wrappers
  import opened Decimal

  const SITE_HANDLE: string := "@CatechizeOrg"
  const PLAYER_WIDTH: nat := 435
  const PLAYER_HEIGHT: nat := 251
  const PLAYER_BASE_URL: string := "/player"

  /** The tags of `TwitterCardMeta`; `image` is the optional `twitter:image`. */
  datatype CardMeta = CardMeta(
    card: string, site: string, title: string, description: string,
    player: string, width: string, height: string, image: Option<string>)

  /** The player page for an episode. */
  function PlayerUrl(episodeId: string): (url: string)
    ensures |url| == |PLAYER_BASE_URL| + 9 + |episodeId|
    ensures url[..|PLAYER_BASE_URL| + 9] == PLAYER_BASE_URL + "?episode="
    ensures url[|PLAYER_BASE_URL| + 9..] == episodeId
  {
    PLAYER_BASE_URL + "?episode=" + episodeId
  }

  /** `generateTwitterCardMeta(episode)`; the image tag is spread in only
      when `imageUrl` is truthy, that is present and non-empty. */
  function GenerateTwitterCardMeta(id: string, title: string, description: string, imageUrl: Option<string>): (m: CardMeta)
    ensures m.card == "player" && m.site == SITE_HANDLE
    ensures m.title == title && m.description == description
    ensures m.player == PlayerUrl(id)
    ensures m.width == NatToString(PLAYER_WIDTH) && m.height == NatToString(PLAYER_HEIGHT)
    ensures m.image.Some? <==> imageUrl.Some? && imageUrl.value != ""
    ensures m.image.Some? ==> m.image == imageUrl
  {
    CardMeta("player", SITE_HANDLE, title, description, PlayerUrl(id),
             NatToString(PLAYER_WIDTH), NatToString(PLAYER_HEIGHT),
             if imageUrl.Some? && imageUrl.value != "" then imageUrl else None)
  }

  /** The dimensions are written as the decimal strings "435" and "251". */
  lemma DimensionsSpelled(id: string, title: string, description: string, imageUrl: Option<string>)
    ensures GenerateTwitterCardMeta(id, title, description, imageUrl).width == "435"
    ensures GenerateTwitterCardMeta(id, title, description, imageUrl).height == "251"
  {
    assert NatToString(43) == "43" by {
      assert NatToString(4) == "4";
    }
    assert NatToString(25) == "25" by {
      assert NatToString(2) == "2";
    }
  }

  /** The episode can be read back from the player tag, so distinct episodes
      get distinct players. */
  lemma PlayerIdentifiesEpisode(id1: string, id2: string, title: string, description: string, imageUrl: Option<string>)
    requires GenerateTwitterCardMeta(id1, title, description, imageUrl).player ==
             GenerateTwitterCardMeta(id2, title, description, imageUrl).player
    ensures id1 == id2
  {
    assert PlayerUrl(id1)[|PLAYER_BASE_URL| + 9..] == id1;
    assert PlayerUrl(id2)[|PLAYER_BASE_URL| + 9..] == id2;
  }
}
