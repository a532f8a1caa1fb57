/**
 * The search-and-submit controller as values: the record of its nine state
 * hooks, one transition function per event handler (an asynchronous handler
 * is split into the half that issues a request and the half that runs when
 * the reply arrives), and the session those handlers drive, with the
 * requests still awaiting a reply.
 *
 * Requests leave the controller as `Effect` values and replies come back as
 * `Reply` parameters, so no network is modelled. Replies are not matched to
 * the request that caused them, because the component does not do so.
 */
module SearchFlow {
  import opened Wrappers
  import opened JsText
  import opened EmailShape
  import opened Catalog

  /** The component's nine state hooks, in declaration order. */
  datatype Ui = Ui(
    query: string,
    results: seq<Track>,
    isLoading: bool,
    token: string,
    selectedTrack: Option<Track>,
    isSubmitting: bool,
    email: string,
    emailError: string,
    showEmailError: bool)

  /** The initial values given to the hooks. */
  const Initial := Ui("", [], false, "", None, false, "", "", false)

  /** The values the component takes from its build environment. */
  datatype Config = Config(
    clientId: string,
    clientSecret: string,
    webhookUrl: string,
    redirectUrl: Option<string>)

  /** How an awaited request ends: a response with `ok` set and its parsed
      body, a response with `ok` unset, or a rejection (the request or the
      body parsing threw). */
  datatype Reply<T> = Ok(body: T) | NotOk | Thrown

  /** What the controller asks of the outside world. */
  datatype Effect =
    | RequestToken(clientId: string, clientSecret: string)  // client-credentials grant, Basic auth
    | RequestSearch(query: string, token: string)           // track search, limit 5, Bearer auth
    | PostCampaign(url: string, campaign: Campaign)
    | Navigate(url: string)
    | Alert(message: string)

  const SubmitFailedAlert := "Failed to submit campaign. Please try again."

  /** A handler's new state and the request or host action it starts, if any. */
  datatype Next = Next(ui: Ui, effect: Option<Effect>)

  /** Token reply: an `ok` response stores `access_token` (a missing one is
      stored as the empty, falsy string); any failure leaves the state alone. */
  function TokenArrived(ui: Ui, reply: Reply<Option<string>>): (r: Ui)
    ensures r == ui.(token := r.token)
    ensures reply.Ok? && reply.body.Some? ==> r.token == reply.body.value
    ensures reply.Ok? && reply.body.None? ==> r.token == ""
    ensures !reply.Ok? ==> r == ui
  {
    match reply
    case Ok(accessToken) => ui.(token := accessToken.GetOr(""))
    case _ => ui
  }

  /** `searchSpotify`, issue half: a blank query or a missing token is a
      silent no-op; otherwise the loading flag is raised and the request goes out. */
  function SearchSpotify(ui: Ui, q: string): (r: Next)
    ensures r.effect.None? <==> IsBlank(q) || ui.token == ""
    ensures r.effect.None? ==> r.ui == ui
    ensures r.effect.Some? ==> r.ui == ui.(isLoading := true) && r.effect.value == RequestSearch(q, ui.token)
  {
    TrimEmptyIffBlank(q);
    if Trim(q) == "" || ui.token == "" then Next(ui, None)
    else Next(ui.(isLoading := true), Some(RequestSearch(q, ui.token)))
  }

  /** `searchSpotify`, reply half: the loading flag drops on every path; an
      `ok` reply replaces the results with `tracks.items` (or `[]` when absent),
      whatever query is current; a failed one keeps them. */
  function SearchArrived(ui: Ui, reply: Reply<Option<seq<Track>>>): (r: Ui)
    ensures !r.isLoading
    ensures r == ui.(isLoading := false, results := r.results)
    ensures reply.Ok? ==> r.results == reply.body.GetOr([])
    ensures !reply.Ok? ==> r.results == ui.results
  {
    match reply
    case Ok(items) => ui.(results := items.GetOr([]), isLoading := false)
    case _ => ui.(isLoading := false)
  }

  /** `handleInputChange`: the query always takes the new value; an empty
      value clears the results, a non-empty one starts a search. */
  function InputChanged(ui: Ui, value: string): (r: Next)
    ensures r.ui.query == value
    ensures value == "" ==> r == Next(ui.(query := value, results := []), None)
    ensures value != "" ==> r == SearchSpotify(ui.(query := value), value)
  {
    var typed := ui.(query := value);
    if value != "" then SearchSpotify(typed, value) else Next(typed.(results := []), None)
  }

  /** `handleTrackSelect`: the track becomes the selection, and the search
      box and its results are emptied; no other hook changes. */
  function SelectTrack(ui: Ui, track: Track): (r: Ui)
    ensures r.selectedTrack == Some(track) && r.results == [] && r.query == ""
    ensures r.(selectedTrack := ui.selectedTrack, results := ui.results, query := ui.query) == ui
  {
    ui.(selectedTrack := Some(track), results := [], query := "")
  }

  /** `validateEmail`: true exactly when the address matches the pattern; on
      a mismatch the format message is stored, on a match nothing changes
      (an earlier message is not cleared). */
  function ValidateEmail(ui: Ui, e: string): (r: (Ui, bool))
    ensures r.1 <==> MatchesPattern(e)
    ensures r.1 ==> r.0 == ui
    ensures !r.1 ==> r.0 == ui.(emailError := FormatMessage)
  {
    ValidIffMatches(e);
    if IsValidEmail(e) then (ui, true) else (ui.(emailError := FormatMessage), false)
  }

  /** `handleSubmitCampaign`, issue half: a missing track or address shows
      "Email is required", a malformed address shows the format message, and
      neither sends anything nor touches the submitting flag; otherwise the
      flag is raised and the campaign is posted to the webhook. */
  function SubmitCampaign(ui: Ui, cfg: Config, submittedAt: string): (r: Next)
    ensures r.effect.Some? <==> ui.selectedTrack.Some? && ui.email != "" && MatchesPattern(ui.email)
    ensures ui.selectedTrack.None? || ui.email == "" ==>
              r.ui == ui.(showEmailError := true, emailError := RequiredMessage)
    ensures ui.selectedTrack.Some? && ui.email != "" && !MatchesPattern(ui.email) ==>
              r.ui == ui.(showEmailError := true, emailError := FormatMessage)
    ensures r.effect.Some? ==>
              && r.ui == ui.(isSubmitting := true)
              && r.effect.value == PostCampaign(cfg.webhookUrl, BuildCampaign(ui.email, ui.selectedTrack.value, submittedAt))
  {
    if ui.selectedTrack.None? || ui.email == "" then
      Next(ui.(showEmailError := true, emailError := RequiredMessage), None)
    else
      var (checked, ok) := ValidateEmail(ui, ui.email);
      if !ok then Next(checked.(showEmailError := true), None)
      else
        var campaign := BuildCampaign(ui.email, ui.selectedTrack.value, submittedAt);
        Next(ui.(isSubmitting := true), Some(PostCampaign(cfg.webhookUrl, campaign)))
  }

  /** `handleSubmitCampaign`, reply half: the submitting flag drops on both
      paths; success navigates to the configured redirect (or the default
      checkout page), failure raises the alert and stays. */
  function SubmitArrived(ui: Ui, cfg: Config, reply: Reply<()>): (r: Next)
    ensures r.ui == ui.(isSubmitting := false)
    ensures reply.Ok? ==> r.effect == Some(Navigate(RedirectTarget(cfg.redirectUrl)))
    ensures !reply.Ok? ==> r.effect == Some(Alert(SubmitFailedAlert))
  {
    var effect := if reply.Ok? then Navigate(RedirectTarget(cfg.redirectUrl)) else Alert(SubmitFailedAlert);
    Next(ui.(isSubmitting := false), Some(effect))
  }

  /** The email field's `onChange`: the address always takes the new value,
      and is re-validated only once an error is being shown. */
  function EmailChanged(ui: Ui, value: string): (r: Ui)
    ensures r == ui.(email := value, emailError := r.emailError)
    ensures !ui.showEmailError || MatchesPattern(value) ==> r.emailError == ui.emailError
    ensures ui.showEmailError && !MatchesPattern(value) ==> r.emailError == FormatMessage
  {
    var typed := ui.(email := value);
    if ui.showEmailError then ValidateEmail(typed, value).0 else typed
  }

  /** "Choose Different Song": the selection, the address and the error
      state are cleared; the query and results stay as they were, and so
      does every other hook. */
  function ResetSelection(ui: Ui): (r: Ui)
    ensures r.selectedTrack.None? && r.email == "" && r.emailError == "" && !r.showEmailError
    ensures r.query == ui.query && r.results == ui.results
    ensures r.(selectedTrack := ui.selectedTrack, email := ui.email, emailError := ui.emailError,
               showEmailError := ui.showEmailError) == ui
  {
    ui.(selectedTrack := None, email := "", emailError := "", showEmailError := false)
  }

  // ---------------------------------------------------------------------
  // The session: the hooks plus the requests still awaiting a reply.

  datatype TokenPhase = NotRequested | Pending | Settled

  datatype Session = Session(
    ui: Ui,
    tokenPhase: TokenPhase,
    searchesInFlight: nat,
    postsInFlight: nat)

  /** The session as first rendered, before the token request goes out. */
  const Start := Session(Initial, NotRequested, 0, 0)

  datatype Event =
    | Mounted                                          // the mount effect runs
    | TokenReplied(tokenReply: Reply<Option<string>>)
    | QueryEdited(query: string)
    | SearchReplied(searchReply: Reply<Option<seq<Track>>>)
    | TrackClicked(track: Track)
    | EmailEdited(email: string)
    | SubmitClicked(submittedAt: string)
    | SubmitReplied(submitReply: Reply<()>)
    | DifferentSongClicked

  /** Whether the session is ready for an event: the mount effect runs
      once, a reply needs a request awaiting it, and a press of the submit
      button needs the button enabled (`disabled={isSubmitting}`). */
  predicate Ready(s: Session, ev: Event) {
    match ev
    case Mounted => s.tokenPhase == NotRequested
    case TokenReplied(_) => s.tokenPhase == Pending
    case SearchReplied(_) => s.searchesInFlight > 0
    case SubmitClicked(_) => !s.ui.isSubmitting
    case SubmitReplied(_) => s.postsInFlight > 0
    case _ => true
  }

  /** Whether the control an event comes from is on screen: the search box
      and its result list are rendered only while no track is selected (and
      only a listed result can be clicked), the email field and the two
      buttons only while one is. */
  predicate OnScreen(ui: Ui, ev: Event) {
    match ev
    case QueryEdited(_) => ui.selectedTrack.None?
    case TrackClicked(track) => ui.selectedTrack.None? && track in ui.results
    case EmailEdited(_) => ui.selectedTrack.Some?
    case SubmitClicked(_) => ui.selectedTrack.Some?
    case DifferentSongClicked => ui.selectedTrack.Some?
    case _ => true
  }

  predicate Enabled(s: Session, ev: Event) {
    Ready(s, ev) && OnScreen(s.ui, ev)
  }

  /** The handler an event runs, and what it does to the session. */
  function Apply(s: Session, cfg: Config, ev: Event): (Session, Option<Effect>)
    requires Ready(s, ev)
  {
    match ev
    case Mounted =>
      (s.(tokenPhase := Pending), Some(RequestToken(cfg.clientId, cfg.clientSecret)))
    case TokenReplied(reply) =>
      (s.(ui := TokenArrived(s.ui, reply), tokenPhase := Settled), None)
    case QueryEdited(value) =>
      var n := InputChanged(s.ui, value);
      (s.(ui := n.ui, searchesInFlight := s.searchesInFlight + if n.effect.Some? then 1 else 0), n.effect)
    case SearchReplied(reply) =>
      (s.(ui := SearchArrived(s.ui, reply), searchesInFlight := s.searchesInFlight - 1), None)
    case TrackClicked(track) =>
      (s.(ui := SelectTrack(s.ui, track)), None)
    case EmailEdited(value) =>
      (s.(ui := EmailChanged(s.ui, value)), None)
    case SubmitClicked(submittedAt) =>
      var n := SubmitCampaign(s.ui, cfg, submittedAt);
      (s.(ui := n.ui, postsInFlight := s.postsInFlight + if n.effect.Some? then 1 else 0), n.effect)
    case SubmitReplied(reply) =>
      var n := SubmitArrived(s.ui, cfg, reply);
      (s.(ui := n.ui, postsInFlight := s.postsInFlight - 1), n.effect)
    case DifferentSongClicked =>
      (s.(ui := ResetSelection(s.ui)), None)
  }

  /** One event as it can happen in the browser: an event the session is not
      ready for, or whose control is not on screen, changes nothing and starts
      nothing; any other runs its handler. */
  function Step(s: Session, cfg: Config, ev: Event): (r: (Session, Option<Effect>))
    ensures !Enabled(s, ev) ==> r == (s, None)
    ensures Enabled(s, ev) ==> r == Apply(s, cfg, ev)
  {
    if Enabled(s, ev) then Apply(s, cfg, ev) else (s, None)
  }

  function Emitted(effect: Option<Effect>): seq<Effect> {
    if effect.Some? then [effect.value] else []
  }

  /** A sequence of events, with the effects they start in order. */
  function Run(s: Session, cfg: Config, events: seq<Event>): (Session, seq<Effect>)
    decreases |events|
  {
    if events == [] then (s, [])
    else
      var step := Step(s, cfg, events[0]);
      var rest := Run(step.0, cfg, events[1..]);
      (rest.0, Emitted(step.1) + rest.1)
  }

  lemma RunCons(s: Session, cfg: Config, ev: Event, events: seq<Event>)
    ensures var step := Step(s, cfg, ev);
      Run(s, cfg, [ev] + events) == (Run(step.0, cfg, events).0, Emitted(step.1) + Run(step.0, cfg, events).1)
  {
    assert ([ev] + events)[1..] == events;
  }

  /** What every reachable session satisfies: loading implies a search
      awaits its reply, at most one campaign post is in flight and the
      submitting flag says exactly whether one is, and a token is held only
      once the token request has been answered. */
  predicate Inv(s: Session) {
    && (s.ui.isLoading ==> s.searchesInFlight > 0)
    && s.postsInFlight <= 1
    && (s.ui.isSubmitting <==> s.postsInFlight == 1)
    && (s.ui.token != "" ==> s.tokenPhase == Settled)
  }

  /** Every handler keeps the invariant when the session is ready for its event. */
  lemma ApplyKeepsInv(s: Session, cfg: Config, ev: Event)
    requires Inv(s) && Ready(s, ev)
    ensures Inv(Apply(s, cfg, ev).0)
  {
  }

  lemma StepKeepsInv(s: Session, cfg: Config, ev: Event)
    requires Inv(s)
    ensures Inv(Step(s, cfg, ev).0)
  {
    if Enabled(s, ev) {
      ApplyKeepsInv(s, cfg, ev);
    }
  }

  lemma {:induction false} RunKeepsInv(s: Session, cfg: Config, events: seq<Event>)
    requires Inv(s)
    ensures Inv(Run(s, cfg, events).0)
    decreases |events|
  {
    if events != [] {
      StepKeepsInv(s, cfg, events[0]);
      RunKeepsInv(Step(s, cfg, events[0]).0, cfg, events[1..]);
    }
  }

  /** From the first render, whatever happens: never more than one campaign
      post awaits its reply, the submit button is disabled exactly while one
      does, and the loading flag is down whenever no search is pending. */
  lemma ReachableSessions(cfg: Config, events: seq<Event>)
    ensures var s := Run(Start, cfg, events).0;
      && s.postsInFlight <= 1
      && (s.ui.isSubmitting <==> s.postsInFlight == 1)
      && (s.searchesInFlight == 0 ==> !s.ui.isLoading)
  {
    RunKeepsInv(Start, cfg, events);
  }

  /** The reply that grants a usable token. */
  predicate GrantsToken(ev: Event) {
    ev.TokenReplied? && ev.tokenReply.Ok? && ev.tokenReply.body.Some? && ev.tokenReply.body.value != ""
  }

  /** Without a token no search request ever leaves: until a reply grants a
      token (and forever, once the token request has been answered without
      one) every edit of the query is a local no-op and the token stays empty. */
  lemma {:induction false} NoTokenNoSearch(s: Session, cfg: Config, events: seq<Event>)
    requires s.ui.token == ""
    requires s.tokenPhase == Settled || forall k | 0 <= k < |events| :: !GrantsToken(events[k])
    ensures Run(s, cfg, events).0.ui.token == ""
    ensures forall e | e in Run(s, cfg, events).1 :: !e.RequestSearch?
    decreases |events|
  {
    if events != [] {
      var (next, effect) := Step(s, cfg, events[0]);
      assert next.ui.token == "";
      assert s.tokenPhase == Settled ==> next.tokenPhase == Settled;
      assert effect.Some? ==> !effect.value.RequestSearch?;
      NoTokenNoSearch(next, cfg, events[1..]);
    }
  }

  /** Once the token request has failed, nothing the user does can bring a token. */
  lemma FailedTokenDisablesSearch(cfg: Config, reply: Reply<Option<string>>, events: seq<Event>)
    requires !reply.Ok?
    ensures var (s, effects) := Run(Start, cfg, [Mounted, TokenReplied(reply)] + events);
      s.ui.token == "" && forall e | e in effects :: !e.RequestSearch?
  {
    var s1 := Step(Start, cfg, Mounted).0;
    var s2 := Step(s1, cfg, TokenReplied(reply)).0;
    assert s2.ui.token == "" && s2.tokenPhase == Settled;
    assert ([Mounted, TokenReplied(reply)] + events)[1..] == [TokenReplied(reply)] + events;
    assert ([TokenReplied(reply)] + events)[1..] == events;
    NoTokenNoSearch(s2, cfg, events);
  }

  /** The submit button pressed twice while the first post is pending, then
      the reply: exactly one campaign is posted (the second press meets a
      disabled button), the flag is down again afterwards, and the reply
      decides between the redirect and the alert. */
  lemma {:induction false} DoubleSubmitPostsOnce(s: Session, cfg: Config, first: string, second: string, reply: Reply<()>)
    requires Inv(s) && !s.ui.isSubmitting
    requires s.ui.selectedTrack.Some? && s.ui.email != "" && MatchesPattern(s.ui.email)
    ensures var (last, effects) := Run(s, cfg, [SubmitClicked(first), SubmitClicked(second), SubmitReplied(reply)]);
      && effects == [
           PostCampaign(cfg.webhookUrl, BuildCampaign(s.ui.email, s.ui.selectedTrack.value, first)),
           if reply.Ok? then Navigate(RedirectTarget(cfg.redirectUrl)) else Alert(SubmitFailedAlert)]
      && !last.ui.isSubmitting && last.postsInFlight == 0
  {
    var campaign := BuildCampaign(s.ui.email, s.ui.selectedTrack.value, first);
    var s1 := s.(ui := s.ui.(isSubmitting := true), postsInFlight := 1);
    assert Step(s, cfg, SubmitClicked(first)) == (s1, Some(PostCampaign(cfg.webhookUrl, campaign)));
    assert !Enabled(s1, SubmitClicked(second));
    assert Step(s1, cfg, SubmitClicked(second)) == (s1, None);
    var outcome := if reply.Ok? then Navigate(RedirectTarget(cfg.redirectUrl)) else Alert(SubmitFailedAlert);
    var s3 := s1.(ui := s1.ui.(isSubmitting := false), postsInFlight := 0);
    assert Step(s1, cfg, SubmitReplied(reply)) == (s3, Some(outcome));
    RunCons(s1, cfg, SubmitReplied(reply), []);
    RunCons(s1, cfg, SubmitClicked(second), [SubmitReplied(reply)]);
    RunCons(s, cfg, SubmitClicked(first), [SubmitClicked(second), SubmitReplied(reply)]);
  }

  /** A granted token is what lets searches out: once the token reply
      carries a non-empty access token, a non-blank edit sends a search
      request with exactly that token. */
  lemma TokenEnablesSearch(cfg: Config, granted: string, query: string)
    requires granted != "" && !IsBlank(query)
    ensures Run(Start, cfg, [Mounted, TokenReplied(Ok(Some(granted))), QueryEdited(query)]).1
            == [RequestToken(cfg.clientId, cfg.clientSecret), RequestSearch(query, granted)]
  {
    var s1 := Start.(tokenPhase := Pending);
    assert Step(Start, cfg, Mounted) == (s1, Some(RequestToken(cfg.clientId, cfg.clientSecret)));
    var s2 := s1.(ui := s1.ui.(token := granted), tokenPhase := Settled);
    assert Step(s1, cfg, TokenReplied(Ok(Some(granted)))) == (s2, None);
    EditSearches(s2, cfg, query);
    RunCons(s2, cfg, QueryEdited(query), []);
    RunCons(s1, cfg, TokenReplied(Ok(Some(granted))), [QueryEdited(query)]);
    RunCons(Start, cfg, Mounted, [TokenReplied(Ok(Some(granted))), QueryEdited(query)]);
  }

  /** An edit with a token and a non-blank value sends exactly one search and raises the loading flag. */
  lemma EditSearches(s: Session, cfg: Config, value: string)
    requires s.ui.token != "" && !IsBlank(value) && s.ui.selectedTrack.None?
    ensures Step(s, cfg, QueryEdited(value))
            == (s.(ui := s.ui.(query := value, isLoading := true), searchesInFlight := s.searchesInFlight + 1),
                Some(RequestSearch(value, s.ui.token)))
  {
    assert value != "";
  }

  /** A search reply that carries items while a search is pending installs them and drops the loading flag. */
  lemma ReplyInstalls(s: Session, cfg: Config, items: seq<Track>)
    requires s.searchesInFlight > 0
    ensures Step(s, cfg, SearchReplied(Ok(Some(items))))
            == (s.(ui := s.ui.(results := items, isLoading := false), searchesInFlight := s.searchesInFlight - 1), None)
  {
  }

  /** No stale-reply defence: after two edits, the session shows whatever
      the last reply to arrive carried, even when it answers the older query. */
  lemma StaleReplyWins(s: Session, cfg: Config, older: seq<Track>, newer: seq<Track>)
    requires s.ui.token != "" && s.ui.selectedTrack.None?
    ensures var (last, effects) := Run(s, cfg, [QueryEdited("a"), QueryEdited("ab"),
                                                SearchReplied(Ok(Some(newer))), SearchReplied(Ok(Some(older)))]);
      && effects == [RequestSearch("a", s.ui.token), RequestSearch("ab", s.ui.token)]
      && last.ui.query == "ab" && last.ui.results == older && !last.ui.isLoading
  {
    assert !IsWhitespace("a"[0]) && !IsWhitespace("ab"[0]);
    var replies := [SearchReplied(Ok(Some(newer))), SearchReplied(Ok(Some(older)))];
    assert [QueryEdited("a"), QueryEdited("ab"), SearchReplied(Ok(Some(newer))), SearchReplied(Ok(Some(older)))]
           == [QueryEdited("a")] + ([QueryEdited("ab")] + replies);
    var s2 := s.(ui := s.ui.(query := "ab", isLoading := true), searchesInFlight := s.searchesInFlight + 2);
    TwoRepliesInstallLast(s2, cfg, newer, older);
    TwoEditsSearchBoth(s, cfg, "a", "ab", replies);
  }

  /** Two non-blank edits in a row each send a search with the held token; whatever follows runs from there. */
  lemma TwoEditsSearchBoth(s: Session, cfg: Config, q1: string, q2: string, rest: seq<Event>)
    requires s.ui.token != "" && s.ui.selectedTrack.None? && !IsBlank(q1) && !IsBlank(q2)
    ensures var s2 := s.(ui := s.ui.(query := q2, isLoading := true), searchesInFlight := s.searchesInFlight + 2);
      Run(s, cfg, [QueryEdited(q1)] + ([QueryEdited(q2)] + rest))
      == (Run(s2, cfg, rest).0, [RequestSearch(q1, s.ui.token)] + ([RequestSearch(q2, s.ui.token)] + Run(s2, cfg, rest).1))
  {
    var s1 := s.(ui := s.ui.(query := q1, isLoading := true), searchesInFlight := s.searchesInFlight + 1);
    EditThenRun(s1, cfg, q2, rest);
    EditThenRun(s, cfg, q1, [QueryEdited(q2)] + rest);
  }

  /** A non-blank edit with a token, followed by any events: one search is sent, then the rest runs. */
  lemma EditThenRun(s: Session, cfg: Config, q: string, rest: seq<Event>)
    requires s.ui.token != "" && s.ui.selectedTrack.None? && !IsBlank(q)
    ensures var s1 := s.(ui := s.ui.(query := q, isLoading := true), searchesInFlight := s.searchesInFlight + 1);
      Run(s, cfg, [QueryEdited(q)] + rest) == (Run(s1, cfg, rest).0, [RequestSearch(q, s.ui.token)] + Run(s1, cfg, rest).1)
  {
    EditSearches(s, cfg, q);
    RunCons(s, cfg, QueryEdited(q), rest);
  }

  /** Two search replies arriving while two searches are pending: the second one's items are what remain. */
  lemma TwoRepliesInstallLast(s: Session, cfg: Config, first: seq<Track>, second: seq<Track>)
    requires s.searchesInFlight >= 2
    ensures Run(s, cfg, [SearchReplied(Ok(Some(first))), SearchReplied(Ok(Some(second)))])
            == (s.(ui := s.ui.(results := second, isLoading := false), searchesInFlight := s.searchesInFlight - 2), [])
  {
    ReplyInstalls(s, cfg, first);
    var s1 := s.(ui := s.ui.(results := first, isLoading := false), searchesInFlight := s.searchesInFlight - 1);
    ReplyInstalls(s1, cfg, second);
    RunCons(s1, cfg, SearchReplied(Ok(Some(second))), []);
    RunCons(s, cfg, SearchReplied(Ok(Some(first))), [SearchReplied(Ok(Some(second)))]);
  }

  /** A search still in flight when a track is chosen repopulates the results
      under the selection: the component does not keep "in results" and
      "selected" apart. */
  lemma ReplyAfterSelection(s: Session, cfg: Config, query: string, chosen: Track, late: seq<Track>)
    requires s.ui.token != "" && !IsBlank(query) && |late| > 0
    requires s.ui.selectedTrack.None? && chosen in s.ui.results
    ensures var last := Run(s, cfg, [QueryEdited(query), TrackClicked(chosen), SearchReplied(Ok(Some(late)))]).0;
      last.ui.selectedTrack == Some(chosen) && last.ui.results == late && last.ui.query == ""
  {
    EditSearches(s, cfg, query);
    var s1 := Step(s, cfg, QueryEdited(query)).0;
    assert s1.ui.results == s.ui.results && s1.ui.selectedTrack.None? && s1.searchesInFlight > 0;
    var s2 := s1.(ui := SelectTrack(s1.ui, chosen));
    assert Step(s1, cfg, TrackClicked(chosen)) == (s2, None);
    ReplyInstalls(s2, cfg, late);
    RunCons(s2, cfg, SearchReplied(Ok(Some(late))), []);
    RunCons(s1, cfg, TrackClicked(chosen), [SearchReplied(Ok(Some(late)))]);
    RunCons(s, cfg, QueryEdited(query), [TrackClicked(chosen), SearchReplied(Ok(Some(late)))]);
  }

  /** Once an error is showing, correcting the address re-validates it but
      does not clear the message shown. */
  lemma CorrectedEmailKeepsError(ui: Ui)
    requires ui.showEmailError && ui.emailError == FormatMessage
    ensures EmailChanged(ui, "a@b.c").emailError == FormatMessage
    ensures EmailChanged(ui, "a@b.c").showEmailError
  {
    AcceptsExample();
  }

  /** Choosing a track and then "Choose Different Song" returns to the empty
      search screen: no selection, query, results, address or error. */
  lemma SelectThenReset(ui: Ui, track: Track)
    ensures var r := ResetSelection(SelectTrack(ui, track));
      && r.selectedTrack.None? && r.query == "" && r.results == []
      && r.email == "" && r.emailError == "" && !r.showEmailError
      && r.token == ui.token && r.isLoading == ui.isLoading && r.isSubmitting == ui.isSubmitting
  {
  }
}
