# Spotify search and campaign submission — a Dafny model

This project models the search-and-submit controller of a small web
front end (`src/components/SpotifySearch.jsx`). At mount the component
obtains a catalogue access token with a client-credentials grant. Each
edit of the search box queries the track catalogue (five results at
most). Clicking a result selects that track and clears the search. The
user then enters an email address. Submitting validates the address,
posts a campaign record (address plus track metadata) to a webhook, and
on success redirects to a checkout page.

The model has five modules:

- `JsText`: the JavaScript string operations the component relies on. These are the `\s`
  whitespace class, `trim`, and `Array.prototype.join`, with a `split`
  proved to invert `join`.
- `EmailShape`: the test `/^[^@\s]+@[^@\s]+\.[^@\s]+$/` behind
  `validateEmail`. It is stated twice: once as what the pattern matches
  (`MatchesPattern`) and once as an explicit string predicate
  (`IsValidEmail`: one `@`, no whitespace, a non-empty local part, a
  domain with a `.` that is neither its first nor its last character).
  A lemma proves that the two agree on every string.
- `Catalog`: the track as the search endpoint returns it, the
  webhook campaign record built from it, and the redirect target.
- `SearchFlow`: the nine state hooks as a record `Ui`, and one
  transition function per handler. Each asynchronous handler is split
  into an issue half, which returns the request as an `Effect`, and a
  reply half, which takes the outcome as a `Reply` parameter. A
  `Session` adds the requests still awaiting a reply. `Apply` performs
  one event's handler. `Step` applies an event only when it can happen:
  its reply is awaited, or its control is on screen and enabled.
  Otherwise `Step` ignores the event. `Run` applies events in any order.
  The lemmas here are about whole event sequences.
- `Component`: the class `SpotifySearch`. Its fields are the nine hooks
  and its methods are the handlers, assigning the fields in the order the
  source does. `SearchSpotify` and `ValidateEmail` are helpers in the
  source. Their methods are proved to give exactly what the functions
  `SearchFlow.SearchSpotify` and `SearchFlow.ValidateEmail` give. Every
  other method is proved to move the session exactly as `SearchFlow.Apply`
  does on its event, so the trace lemmas hold of the class.

Three behaviours a reader might expect that the code does not have:

- Discard stale search replies. The code has no request sequence number, so the last reply
  to arrive wins (`StaleReplyWins`).
- Keep a track either in the results or selected, never both. A search
  reply that arrives after a selection repopulates the results
  (`ReplyAfterSelection`).
- Treat a failed search as "no results". The code keeps the previous
  results on a failed reply (`SearchFlow.SearchArrived`).

## Model

| member | source | states |
|---|---|---|
| JsText.TrimStart | src/components/SpotifySearch.jsx:65 | the result is a suffix of the input, everything dropped is whitespace, and the result does not start with whitespace |
| JsText.TrimEnd | src/components/SpotifySearch.jsx:65 | the result is a prefix of the input, everything dropped is whitespace, and the result does not end with whitespace |
| JsText.Trim | src/components/SpotifySearch.jsx:65 | the result is no longer than the input and neither starts nor ends with whitespace |
| JsText.TrimKeepsMiddle | src/components/SpotifySearch.jsx:65 | the result is a run of the input with only whitespace before and after it |
| JsText.TrimEmptyIffBlank | src/components/SpotifySearch.jsx:65 | `trim()` gives the empty string exactly when every character is whitespace, which is what the `!searchQuery.trim()` guard tests |
| JsText.Join | src/components/SpotifySearch.jsx:139 | joining no parts gives "" and joining one part gives that part unchanged |
| JsText.SplitJoin | src/components/SpotifySearch.jsx:139 | splitting a joined non-empty list on its separator gives the list back when no part contains the separator's first character |
| EmailShape.ValidMatches | src/components/SpotifySearch.jsx:55-56 | every string the explicit predicate accepts matches the pattern |
| EmailShape.MatchesValid | src/components/SpotifySearch.jsx:55-56 | every string the pattern matches is accepted by the explicit predicate |
| EmailShape.ValidIffMatches | src/components/SpotifySearch.jsx:55-56 | both directions: the explicit predicate accepts a string exactly when the pattern matches it |
| EmailShape.AcceptsExample | src/components/SpotifySearch.jsx:55 | the pattern accepts "a@b.c" |
| EmailShape.RejectsExamples | src/components/SpotifySearch.jsx:55 | the pattern rejects "a@b", "ab.c" and "a@b c" |
| Catalog.ArtistNames | src/components/SpotifySearch.jsx:139 | `artists.map(a => a.name)` keeps the length and, at each index, that artist's name |
| Catalog.AlbumArtwork | src/components/SpotifySearch.jsx:142 | the artwork is present exactly when the album has an image, and is then the first image's URL |
| Catalog.BuildCampaign | src/components/SpotifySearch.jsx:136-145 | the record carries the address and timestamp given, and the track's name, album name, Spotify URL and preview URL; the artwork is present exactly when the album has an image, and is then the first image's URL; no artists give an empty `artistName` and one artist gives that name |
| Catalog.CampaignArtistsInOrder | src/components/SpotifySearch.jsx:136-145 | the campaign's `artistName` lists the track's artist names in order, joined by ", ", so splitting it gives them back when no name holds a comma |
| Catalog.CampaignArtistsEdgeCases | src/components/SpotifySearch.jsx:139 | a track with no artists gets "" and a track with one artist gets that name unchanged |
| Catalog.RedirectTarget | src/components/SpotifySearch.jsx:149 | a configured, non-empty redirect URL is used; a missing or empty one falls back to `https://apolone.com/boost-checkout-7235`; the target is never empty |
| SearchFlow.TokenArrived | src/components/SpotifySearch.jsx:37-48 | only the token changes; it changes only on an `ok` reply, which stores the access token, or "" when the reply has none; a failure leaves the state as it was |
| SearchFlow.SearchSpotify | src/components/SpotifySearch.jsx:64-81 | no request exactly when the query is blank or there is no token, and then no state changes; otherwise the loading flag is raised and a search request for the query with the token is sent |
| SearchFlow.SearchArrived | src/components/SpotifySearch.jsx:83-96 | the loading flag is down on every path; an `ok` reply sets the results to `tracks.items`, or `[]` when they are absent, whatever query is current; a failed reply keeps the results; nothing else changes |
| SearchFlow.InputChanged | src/components/SpotifySearch.jsx:99-107 | the query always takes the new value; an empty value clears the results and sends nothing; a non-empty value behaves as `searchSpotify` on it |
| SearchFlow.SelectTrack | src/components/SpotifySearch.jsx:109-113 | the clicked track becomes the selection, and the results and query are cleared; no other hook changes |
| SearchFlow.ValidateEmail | src/components/SpotifySearch.jsx:54-62 | it returns true exactly when the pattern matches; on a mismatch `emailError` becomes the format message; on a match nothing changes, so an earlier message stays |
| SearchFlow.SubmitCampaign | src/components/SpotifySearch.jsx:115-146 | a post is sent exactly when a track is selected, the address is non-empty and it matches the pattern; a missing track or address shows "Email is required", and a malformed address shows the format message, neither touching `isSubmitting`; a valid submission raises `isSubmitting` and posts the campaign built from the track and address to the webhook URL |
| SearchFlow.SubmitArrived | src/components/SpotifySearch.jsx:148-158 | `isSubmitting` drops on both paths and nothing else changes; success navigates to the redirect target; failure raises the "Failed to submit campaign" alert |
| SearchFlow.EmailChanged | src/components/SpotifySearch.jsx:236-241 | the address takes the new value; the error changes only when an error is already shown and the new value does not match, and it then becomes the format message |
| SearchFlow.ResetSelection | src/components/SpotifySearch.jsx:260-265 | the selection, address and error are cleared and the error is hidden; the query and the results are kept; no other hook changes |
| SearchFlow.Step | src/components/SpotifySearch.jsx:163-265 | an event that cannot happen changes nothing and starts nothing. Such an event is a reply with no request awaiting it, a press of the disabled submit button, or an edit or click on a control that is not rendered. The search box and results list show only with no selection, a result can be clicked only if it is in `results`, and the email box and both buttons show only with a selection. Any other event is its handler, as `Apply` |
| SearchFlow.ApplyKeepsInv | src/components/SpotifySearch.jsx:64-158 | every handler, run when its event can happen, keeps the session invariant |
| SearchFlow.StepKeepsInv | src/components/SpotifySearch.jsx:70-96 | every event keeps the session invariant: loading implies a pending search, at most one post is in flight and `isSubmitting` says whether one is, and a token is held only after the token reply |
| SearchFlow.RunKeepsInv | src/components/SpotifySearch.jsx:127-158 | any sequence of events keeps the session invariant |
| SearchFlow.ReachableSessions | src/components/SpotifySearch.jsx:127-158 | from the first render, whatever happens: never more than one campaign post in flight, the submit button is disabled exactly while one is, and `isLoading` is false whenever no search is pending |
| SearchFlow.NoTokenNoSearch | src/components/SpotifySearch.jsx:64-68 | while no reply grants a token, or once the token request has been answered without one, no search request is ever sent and the token stays empty |
| SearchFlow.FailedTokenDisablesSearch | src/components/SpotifySearch.jsx:37-48 | after a failed token request, any later sequence of events leaves the token empty and sends no search request |
| SearchFlow.DoubleSubmitPostsOnce | src/components/SpotifySearch.jsx:115-158 | two presses of the submit button while the first post is pending, then the reply: exactly one campaign is posted, `isSubmitting` ends false, and the reply picks between the redirect and the alert |
| SearchFlow.TokenEnablesSearch | src/components/SpotifySearch.jsx:17-81 | after mount and a token reply granting a non-empty token, a non-blank edit sends exactly the token request and then one search carrying that token |
| SearchFlow.EditSearches | src/components/SpotifySearch.jsx:99-103 | an edit in the search box, with a token and a non-blank value, sets the query, raises the loading flag and sends exactly one search for that value |
| SearchFlow.ReplyInstalls | src/components/SpotifySearch.jsx:89-95 | a reply with items, arriving while a search is pending, installs those items and drops the loading flag |
| SearchFlow.StaleReplyWins | src/components/SpotifySearch.jsx:89-91 | after the edits "a" and "ab", the results are those of the last reply to arrive, even if it answers the older query |
| SearchFlow.TwoEditsSearchBoth | src/components/SpotifySearch.jsx:64-81 | two non-blank edits in a row, with a token and no selection, send one search each with the held token, in order, and leave two searches pending |
| SearchFlow.TwoRepliesInstallLast | src/components/SpotifySearch.jsx:89-95 | with two searches pending, two replies with items leave the second reply's items as the results and the loading flag down |
| SearchFlow.ReplyAfterSelection | src/components/SpotifySearch.jsx:109-113 | a search reply that arrives after a track is chosen fills the results while the track stays selected |
| SearchFlow.CorrectedEmailKeepsError | src/components/SpotifySearch.jsx:236-241 | once the format error is showing, typing a valid address leaves the error message in place |
| SearchFlow.SelectThenReset | src/components/SpotifySearch.jsx:260-265 | choosing a track and then "Choose Different Song" leaves no selection, query, results, address or error, with the token and both flags unchanged |
| Component.SpotifySearch.constructor | src/components/SpotifySearch.jsx:7-15 | every hook starts at its initial value, no request has been sent, and the invariant holds |
| Component.SpotifySearch.GetToken | src/components/SpotifySearch.jsx:17-35 | the mount effect sends the token request with the configured client id and secret, as `Apply` on mount |
| Component.SpotifySearch.ReceiveToken | src/components/SpotifySearch.jsx:37-48 | the new state is `Apply` on the token reply, and the invariant is kept |
| Component.SpotifySearch.SearchSpotify | src/components/SpotifySearch.jsx:64-81 | the new hooks and the request equal `SearchFlow.SearchSpotify`, and a search is pending exactly when one was sent |
| Component.SpotifySearch.ReceiveSearch | src/components/SpotifySearch.jsx:83-96 | the new state is `Apply` on the search reply, and the invariant is kept |
| Component.SpotifySearch.HandleInputChange | src/components/SpotifySearch.jsx:99-107 | the new state and the request are `Apply` on the edit, and the invariant is kept |
| Component.SpotifySearch.HandleTrackSelect | src/components/SpotifySearch.jsx:109-113 | the new state is `Apply` on the click, and the invariant is kept |
| Component.SpotifySearch.ValidateEmail | src/components/SpotifySearch.jsx:54-62 | the result and the new hooks equal `SearchFlow.ValidateEmail`, and no request changes |
| Component.SpotifySearch.HandleSubmitCampaign | src/components/SpotifySearch.jsx:115-146 | the new state and the post are `Apply` on the press, given the button is enabled, and the invariant is kept |
| Component.SpotifySearch.ReceiveSubmitReply | src/components/SpotifySearch.jsx:148-158 | the new state and the redirect or alert are `Apply` on the reply, and the invariant is kept |
| Component.SpotifySearch.HandleEmailChange | src/components/SpotifySearch.jsx:236-241 | the new state is `Apply` on the edit, and the invariant is kept |
| Component.SpotifySearch.ChooseDifferentSong | src/components/SpotifySearch.jsx:260-265 | the new state is `Apply` on the click, and the invariant is kept |
| Component.SearchAfterFailedToken | src/components/SpotifySearch.jsx:37-68 | a component whose token request fails sends no search for whatever is then typed |

## Left out

- Network, console and host calls are not modelled. `fetch` becomes a request `Effect` plus a later `Reply` event. `alert` and the `window.location.href` assignment become `Alert` and `Navigate` effects. `console.*` logging is dropped.
- Environment values (`import.meta.env`) are a `Config` value fixed when the component is built.
- `btoa`, `encodeURIComponent` and `JSON.stringify` are not modelled. Requests carry the raw client id and secret, the raw query, and the campaign as a record.
- `new Date().toISOString()` is not modelled. The timestamp is a parameter of the submit press.
- The JSX markup is not modelled. The one exception is `disabled={isSubmitting}`, which is the precondition of the submit press.
- React's scheduling is not modelled. Each handler sees the current state, and its updates apply at once, in order.
- Concurrency is limited. Replies are events that may arrive in any order. They are not matched to the request that caused them, because the component does not do so.
- SearchFlow.TokenArrived: a reply without `access_token` stores `undefined` in the source. The model stores "", which is equally falsy, and the token is used only through its truthiness and the Bearer header.
- SearchFlow.SearchArrived: the model does not bound the number of results. The five-result cap comes from `limit=5` in the request, and the client does not check it.
- The webhook URL is used as configured. What `fetch` does with a missing URL is not modelled.
- check-the-balance-of-the-card/app.js is not part of this model. Its two routes each pass one call straight to the payment SDK.
- tailwind.config.js and src/App.jsx are not part of this model. One is styling configuration and the other only renders the component.
