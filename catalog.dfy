/**
 * The catalogue track as the search endpoint returns it, and the campaign
 * record the component posts to the webhook once a track is chosen.
 */
module Catalog {
  import opened Wrappers
  import opened JsText

  datatype Artist = Artist(name: string)
  datatype Image = Image(url: string)
  datatype Album = Album(name: string, images: seq<Image>)

  /** One item of `tracks.items`: `id`, `name`, `artists`, `album`,
      `external_urls.spotify` and the nullable `preview_url`. */
  datatype Track = Track(
    id: string,
    name: string,
    artists: seq<Artist>,
    album: Album,
    spotifyUrl: string,
    previewUrl: Option<string>)

  /** The webhook body, field for field; an absent `albumArtwork` is a key
      that the serialised JSON leaves out. */
  datatype Campaign = Campaign(
    email: string,
    songName: string,
    artistName: string,
    albumName: string,
    spotifyUrl: string,
    albumArtwork: Option<string>,
    previewUrl: Option<string>,
    submittedAt: string)

  const ArtistSeparator := ", "
  const DefaultRedirect := "https://apolone.com/boost-checkout-7235"

  /** `artists.map(a => a.name)`. */
  function ArtistNames(artists: seq<Artist>): (names: seq<string>)
    ensures |names| == |artists|
    ensures forall k | 0 <= k < |artists| :: names[k] == artists[k].name
  {
    if artists == [] then [] else [artists[0].name] + ArtistNames(artists[1..])
  }

  /** `album.images[0]?.url`. */
  function AlbumArtwork(album: Album): (url: Option<string>)
    ensures url.Some? <==> |album.images| > 0
    ensures url.Some? ==> url.value == album.images[0].url
  {
    if |album.images| > 0 then Some(album.images[0].url) else None
  }

  /** The campaign built for `track` and `email`; `submittedAt` is the
      timestamp the host clock supplies. */
  function BuildCampaign(email: string, track: Track, submittedAt: string): (c: Campaign)
    ensures c.email == email && c.submittedAt == submittedAt
    ensures c.songName == track.name && c.albumName == track.album.name
    ensures c.spotifyUrl == track.spotifyUrl && c.previewUrl == track.previewUrl
    ensures c.albumArtwork.Some? <==> |track.album.images| > 0
    ensures c.albumArtwork.Some? ==> c.albumArtwork.value == track.album.images[0].url
    ensures |track.artists| == 0 ==> c.artistName == ""
    ensures |track.artists| == 1 ==> c.artistName == track.artists[0].name
  {
    Campaign(
      email,
      track.name,
      Join(ArtistNames(track.artists), ArtistSeparator),
      track.album.name,
      track.spotifyUrl,
      AlbumArtwork(track.album),
      track.previewUrl,
      submittedAt)
  }

  /** The `artistName` field lists the track's artists in order: splitting it
      on ", " gives their names back whenever no name holds a comma. */
  lemma CampaignArtistsInOrder(email: string, track: Track, submittedAt: string)
    requires |track.artists| > 0
    requires forall k | 0 <= k < |track.artists| :: ',' !in track.artists[k].name
    ensures Split(BuildCampaign(email, track, submittedAt).artistName, ArtistSeparator)
            == ArtistNames(track.artists)
  {
    SplitJoin(ArtistNames(track.artists), ArtistSeparator);
  }

  /** A single artist's name goes into `artistName` unchanged, and no artists give "". */
  lemma CampaignArtistsEdgeCases(email: string, track: Track, submittedAt: string)
    ensures |track.artists| == 0 ==> BuildCampaign(email, track, submittedAt).artistName == ""
    ensures |track.artists| == 1 ==>
              BuildCampaign(email, track, submittedAt).artistName == track.artists[0].name
  {
  }

  /** `configured || DefaultRedirect`: a configured URL wins unless it is
      missing or empty, so the target is never empty. */
  function RedirectTarget(configured: Option<string>): (url: string)
    ensures url != ""
    ensures configured.Some? && configured.value != "" ==> url == configured.value
    ensures configured.None? || configured.value == "" ==> url == DefaultRedirect
  {
    if configured.Some? && configured.value != "" then configured.value else DefaultRedirect
  }
}
