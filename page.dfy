/** The `Leaderboard` component's state (`supabase`, `leaderboardData`,
    `loading`, `fetchError`), the effects that update it, and the choice
    of what the page shows. */
module Page {
  import opened Wrappers
  import opened Ranking

  /** The setup error; the page shows the setup screen for exactly this text. */
  const SetupMessage: string := "Please paste your Supabase URL and Key into the code."
  const ClientNotFoundMessage: string := "Could not initialize database. Client not found after load."
  const LibraryFailedMessage: string := "Failed to load database library. Check network connection."
  const PlaceholderUrl: string := "YOUR_SUPABASE_PROJECT_URL"
  const PlaceholderKey: string := "YOUR_SUPABASE_ANON_KEY"

  /** What the page shows: the setup screen, or one of the four table-area states. */
  datatype Display =
    | SetupIncomplete
    | LoadingMessage
    | ErrorMessage(text: string)
    | NoData
    | Table(entries: seq<Entry>)

  /** What became of the client library script once the page asked for it. */
  datatype LibraryOutcome =
    | LibraryPending   // neither `load` nor `error` has fired yet
    | ClientReady      // `window.supabase` was there, at once or after `load`
    | ClientNotFound   // `load` fired but `window.supabase` was missing
    | LibraryFailed    // the script's `error` event fired

  /** JavaScript truthiness of `fetchError`: null and the empty string are falsy. */
  predicate Truthy(fetchError: Option<string>) {
    fetchError.Some? && fetchError.value != ""
  }

  /** The render: the setup screen first, then loading, then the error,
      then the empty message, then the table. */
  function Render(loading: bool, fetchError: Option<string>, data: seq<Entry>): (d: Display)
    ensures d.SetupIncomplete? <==> fetchError == Some(SetupMessage)
    ensures d == LoadingMessage <==> loading && fetchError != Some(SetupMessage)
    ensures d.ErrorMessage? ==> !loading && fetchError.Some? && d.text == "Error: " + fetchError.value
    ensures !loading && fetchError != Some(SetupMessage) && Truthy(fetchError) ==>
              d == ErrorMessage("Error: " + fetchError.value)
    ensures !loading && !Truthy(fetchError) ==> d == (if data == [] then NoData else Table(data))
    ensures d.Table? ==> d.entries == data && data != [] && !Truthy(fetchError)
  {
    if fetchError == Some(SetupMessage) then SetupIncomplete
    else if loading then LoadingMessage
    else if Truthy(fetchError) then ErrorMessage("Error: " + fetchError.value)
    else if |data| == 0 then NoData
    else Table(data)
  }

  class LeaderboardPage {
    /** `supabase != null`: the client has been created. */
    var clientReady: bool
    var leaderboardData: seq<Entry>
    var loading: bool
    var fetchError: Option<string>

    /** The stored list is always a ranked list, and an error is never
        shown as still loading. */
    ghost predicate Valid()
      reads this
    {
      RankedList(leaderboardData) && (fetchError.Some? ==> !loading)
    }

    /** What the page shows in the current state. */
    function Displayed(): (d: Display)
      reads this
      ensures Valid() && loading ==> d == LoadingMessage
      ensures Valid() && d.Table? ==> RankedList(d.entries) && d.entries != []
    {
      Render(loading, fetchError, leaderboardData)
    }

    /** The initial `useState` values. */
    constructor ()
      ensures Valid()
      ensures !clientReady && leaderboardData == [] && loading && fetchError == None
    {
      clientReady := false;
      leaderboardData := [];
      loading := true;
      fetchError := None;
    }

    /** The placeholder check at the top of the first effect: on a
        placeholder URL or key it records the setup error, stops loading
        and tells the caller not to go on. */
    method CheckConfig(url: Option<string>, key: Option<string>) returns (proceed: bool)
      requires Valid()
      modifies this
      ensures Valid()
      ensures proceed <==> url != Some(PlaceholderUrl) && key != Some(PlaceholderKey)
      ensures proceed ==> unchanged(this)
      ensures !proceed ==> fetchError == Some(SetupMessage) && !loading
      ensures clientReady == old(clientReady) && leaderboardData == old(leaderboardData)
    {
      proceed := !(url == Some(PlaceholderUrl) || key == Some(PlaceholderKey));
      if !proceed {
        fetchError := Some(SetupMessage);
        loading := false;
      }
    }

    /** `setSupabase(createClient(...))`, once the library is present. */
    method ClientCreated()
      requires Valid()
      modifies this
      ensures Valid()
      ensures clientReady
      ensures leaderboardData == old(leaderboardData) && loading == old(loading)
      ensures fetchError == old(fetchError)
    {
      clientReady := true;
    }

    /** The script loaded but left no client behind. */
    method ClientMissing()
      requires Valid()
      modifies this
      ensures Valid()
      ensures fetchError == Some(ClientNotFoundMessage) && !loading
      ensures clientReady == old(clientReady) && leaderboardData == old(leaderboardData)
    {
      fetchError := Some(ClientNotFoundMessage);
      loading := false;
    }

    /** The script failed to load. */
    method LibraryLoadFailed()
      requires Valid()
      modifies this
      ensures Valid()
      ensures fetchError == Some(LibraryFailedMessage) && !loading
      ensures clientReady == old(clientReady) && leaderboardData == old(leaderboardData)
    {
      fetchError := Some(LibraryFailedMessage);
      loading := false;
    }

    /** The start of `fetchLeaderboard`, which runs only once a client exists. */
    method StartFetch()
      requires Valid() && clientReady
      modifies this
      ensures Valid()
      ensures loading && fetchError == None
      ensures clientReady && leaderboardData == old(leaderboardData)
    {
      loading := true;
      fetchError := None;
    }

    /** The end of `fetchLeaderboard`: an error is recorded and the old list
        kept; rows replace the list with their ranking. Loading ends either way. */
    method CompleteFetch(result: Result<seq<Row>, string>)
      requires Valid()
      modifies this
      ensures Valid()
      ensures !loading && clientReady == old(clientReady)
      ensures result.Err? ==> fetchError == Some(result.error) && leaderboardData == old(leaderboardData)
      ensures result.Ok? ==>
                fetchError == old(fetchError) && leaderboardData == RankLeaderboard(result.value)
    {
      if result.Err? {
        fetchError := Some(result.error);
      } else {
        RankLeaderboardSpec(result.value);
        leaderboardData := RankLeaderboard(result.value);
      }
      loading := false;
    }
  }

  /** One page load: the placeholder check, the library outcome, and, with
      a client, one query whose result (if it has arrived) is `query`.
      Returns what the page then shows. */
  method RunPage(url: Option<string>, key: Option<string>, library: LibraryOutcome,
                 query: Option<Result<seq<Row>, string>>) returns (shown: Display)
    ensures url == Some(PlaceholderUrl) || key == Some(PlaceholderKey) ==> shown == SetupIncomplete
    ensures url != Some(PlaceholderUrl) && key != Some(PlaceholderKey) ==>
      match library
      case LibraryPending => shown == LoadingMessage
      case ClientNotFound => shown == ErrorMessage("Error: " + ClientNotFoundMessage)
      case LibraryFailed => shown == ErrorMessage("Error: " + LibraryFailedMessage)
      case ClientReady =>
        match query
        case None => shown == LoadingMessage
        case Some(Ok(rows)) => shown == if rows == [] then NoData else Table(RankLeaderboard(rows))
        case Some(Err(message)) =>
          shown == if message == SetupMessage then SetupIncomplete
                   else if message == "" then NoData
                   else ErrorMessage("Error: " + message)
  {
    var page := new LeaderboardPage();
    var proceed := page.CheckConfig(url, key);
    if proceed {
      match library
      case LibraryPending =>
      case ClientNotFound =>
        page.ClientMissing();
      case LibraryFailed =>
        page.LibraryLoadFailed();
      case ClientReady =>
        page.ClientCreated();
        page.StartFetch();
        if query.Some? {
          page.CompleteFetch(query.value);
          if query.value.Ok? {
            RankLeaderboardSpec(query.value.value);
          }
        }
    }
    shown := page.Displayed();
  }
}
