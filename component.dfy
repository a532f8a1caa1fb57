/**
 * The component itself: its nine state hooks as fields that each handler
 * updates one assignment at a time, in the order the handlers do. Every
 * handler is proved to move the session exactly as `SearchFlow.Apply` says
 * for its event (the two helpers, exactly as their `SearchFlow` functions),
 * so everything proved about `Step` and `Run` holds of the component.
 */
module Component {
  import opened Wrappers
  import opened JsText
  import opened EmailShape
  import opened Catalog
  import SearchFlow

  class SpotifySearch {
    const config: SearchFlow.Config

    var query: string
    var results: seq<Track>
    var isLoading: bool
    var token: string
    var selectedTrack: Option<Track>
    var isSubmitting: bool
    var email: string
    var emailError: string
    var showEmailError: bool

    // The requests sent and not yet answered.
    ghost var tokenPhase: SearchFlow.TokenPhase
    ghost var searchesInFlight: nat
    ghost var postsInFlight: nat

    /** The hooks as a record. */
    function View(): SearchFlow.Ui
      reads this
    {
      SearchFlow.Ui(query, results, isLoading, token, selectedTrack, isSubmitting, email, emailError, showEmailError)
    }

    ghost function Session(): SearchFlow.Session
      reads this
    {
      SearchFlow.Session(View(), tokenPhase, searchesInFlight, postsInFlight)
    }

    ghost predicate Valid()
      reads this
    {
      SearchFlow.Inv(Session())
    }

    /** The first render: every hook at its initial value, nothing requested. */
    constructor (config: SearchFlow.Config)
      ensures this.config == config
      ensures Session() == SearchFlow.Start && Valid()
    {
      this.config := config;
      query, results, isLoading, token := "", [], false, "";
      selectedTrack, isSubmitting := None, false;
      email, emailError, showEmailError := "", "", false;
      tokenPhase, searchesInFlight, postsInFlight := SearchFlow.NotRequested, 0, 0;
    }

    /** The mount effect: sends the client-credentials token request. */
    method GetToken() returns (request: SearchFlow.Effect)
      requires Valid() && tokenPhase == SearchFlow.NotRequested
      modifies this
      ensures Valid()
      ensures (Session(), Some(request)) == SearchFlow.Apply(old(Session()), config, SearchFlow.Mounted)
    {
      tokenPhase := SearchFlow.Pending;
      request := SearchFlow.RequestToken(config.clientId, config.clientSecret);
    }

    /** The token reply. */
    method ReceiveToken(reply: SearchFlow.Reply<Option<string>>)
      requires Valid() && tokenPhase == SearchFlow.Pending
      modifies this
      ensures Valid()
      ensures (Session(), None) == SearchFlow.Apply(old(Session()), config, SearchFlow.TokenReplied(reply))
    {
      if reply.Ok? {
        token := reply.body.GetOr("");
      }
      tokenPhase := SearchFlow.Settled;
    }

    /** `searchSpotify`, issue half. */
    method SearchSpotify(q: string) returns (request: Option<SearchFlow.Effect>)
      requires Valid()
      modifies this
      ensures Valid()
      ensures SearchFlow.Next(View(), request) == SearchFlow.SearchSpotify(old(View()), q)
      ensures tokenPhase == old(tokenPhase) && postsInFlight == old(postsInFlight)
      ensures searchesInFlight == old(searchesInFlight) + if request.Some? then 1 else 0
    {
      TrimEmptyIffBlank(q);
      if Trim(q) == "" || token == "" {
        return None;
      }
      isLoading := true;
      searchesInFlight := searchesInFlight + 1;
      request := Some(SearchFlow.RequestSearch(q, token));
    }

    /** `searchSpotify`, reply half: the `finally` drops the loading flag on every path. */
    method ReceiveSearch(reply: SearchFlow.Reply<Option<seq<Track>>>)
      requires Valid() && searchesInFlight > 0
      modifies this
      ensures Valid()
      ensures (Session(), None) == SearchFlow.Apply(old(Session()), config, SearchFlow.SearchReplied(reply))
    {
      if reply.Ok? {
        results := reply.body.GetOr([]);
      }
      isLoading := false;
      searchesInFlight := searchesInFlight - 1;
    }

    /** `handleInputChange`. */
    method HandleInputChange(value: string) returns (request: Option<SearchFlow.Effect>)
      requires Valid()
      modifies this
      ensures Valid()
      ensures (Session(), request) == SearchFlow.Apply(old(Session()), config, SearchFlow.QueryEdited(value))
    {
      query := value;
      if value != "" {
        request := SearchSpotify(value);
      } else {
        results := [];
        request := None;
      }
    }

    /** `handleTrackSelect`. */
    method HandleTrackSelect(track: Track)
      requires Valid()
      modifies this
      ensures Valid()
      ensures (Session(), None) == SearchFlow.Apply(old(Session()), config, SearchFlow.TrackClicked(track))
    {
      selectedTrack := Some(track);
      results := [];
      query := "";
    }

    /** `validateEmail`. */
    method ValidateEmail(e: string) returns (ok: bool)
      requires Valid()
      modifies this
      ensures Valid()
      ensures (View(), ok) == SearchFlow.ValidateEmail(old(View()), e)
      ensures tokenPhase == old(tokenPhase) && searchesInFlight == old(searchesInFlight)
      ensures postsInFlight == old(postsInFlight)
    {
      ValidIffMatches(e);
      ok := IsValidEmail(e);
      if !ok {
        emailError := FormatMessage;
      }
    }

    /** `handleSubmitCampaign`, issue half; the button is disabled while a
        submission is in progress, so it is never pressed then. */
    method HandleSubmitCampaign(submittedAt: string) returns (post: Option<SearchFlow.Effect>)
      requires Valid() && !isSubmitting
      modifies this
      ensures Valid()
      ensures (Session(), post) == SearchFlow.Apply(old(Session()), config, SearchFlow.SubmitClicked(submittedAt))
    {
      if selectedTrack.None? || email == "" {
        showEmailError := true;
        emailError := RequiredMessage;
        return None;
      }
      var ok := ValidateEmail(email);
      if !ok {
        showEmailError := true;
        return None;
      }
      isSubmitting := true;
      var campaign := BuildCampaign(email, selectedTrack.value, submittedAt);
      postsInFlight := postsInFlight + 1;
      post := Some(SearchFlow.PostCampaign(config.webhookUrl, campaign));
    }

    /** `handleSubmitCampaign`, reply half: redirect or alert, then the
        `finally` drops the submitting flag. */
    method ReceiveSubmitReply(reply: SearchFlow.Reply<()>) returns (action: SearchFlow.Effect)
      requires Valid() && postsInFlight > 0
      modifies this
      ensures Valid()
      ensures (Session(), Some(action)) == SearchFlow.Apply(old(Session()), config, SearchFlow.SubmitReplied(reply))
    {
      if reply.Ok? {
        action := SearchFlow.Navigate(RedirectTarget(config.redirectUrl));
      } else {
        action := SearchFlow.Alert(SearchFlow.SubmitFailedAlert);
      }
      isSubmitting := false;
      postsInFlight := postsInFlight - 1;
    }

    /** The email field's `onChange`. */
    method HandleEmailChange(value: string)
      requires Valid()
      modifies this
      ensures Valid()
      ensures (Session(), None) == SearchFlow.Apply(old(Session()), config, SearchFlow.EmailEdited(value))
    {
      email := value;
      if showEmailError {
        var _ := ValidateEmail(value);
      }
    }

    /** "Choose Different Song". */
    method ChooseDifferentSong()
      requires Valid()
      modifies this
      ensures Valid()
      ensures (Session(), None) == SearchFlow.Apply(old(Session()), config, SearchFlow.DifferentSongClicked)
    {
      selectedTrack := None;
      email := "";
      emailError := "";
      showEmailError := false;
    }
  }

  /** A session whose token request fails: whatever is typed afterwards,
      no search request is sent. */
  method SearchAfterFailedToken(config: SearchFlow.Config, failure: SearchFlow.Reply<Option<string>>, typed: string)
    returns (request: Option<SearchFlow.Effect>)
    requires !failure.Ok?
    ensures request.None?
  {
    var component := new SpotifySearch(config);
    var _ := component.GetToken();
    component.ReceiveToken(failure);
    request := component.HandleInputChange(typed);
  }
}
