/**
 * The landing page's logic: the track-length formatter, the Spotify disconnect handler and the five
 * loaders that fill the page from the backend. A backend call is an input (`Fetch`): the answer of an
 * `ok` response, the error of another one, or an exception (network failure or a body that is not
 * JSON).
 */
module Dashboard {
  import opened Options
  import opened Text

  // ---------------------------------------------------------------------------------------------
  // Decimal numerals
  // ---------------------------------------------------------------------------------------------

  predicate IsDigit(c: char) {
    '0' <= c <= '9'
  }

  predicate AllDigits(s: string) {
    forall i :: 0 <= i < |s| ==> IsDigit(s[i])
  }

  function DigitChar(d: nat): (c: char)
    requires d < 10
    ensures IsDigit(c) && c as int - '0' as int == d
  {
    ('0' as int + d) as char
  }

  /** The number a string of digits denotes. */
  function DecimalValue(s: string): nat
    requires AllDigits(s)
  {
    if s == [] then 0 else DecimalValue(s[..|s| - 1]) * 10 + (s[|s| - 1] as int - '0' as int)
  }

  /** `n.toString()` for a non-negative integer: the shortest decimal numeral of `n`. */
  function DecimalString(n: nat): (s: string)
    ensures AllDigits(s) && DecimalValue(s) == n
    ensures |s| >= 1 && (|s| > 1 ==> s[0] != '0')
    ensures n < 10 <==> |s| == 1
    ensures n < 100 ==> |s| <= 2
  {
    if n < 10 then [DigitChar(n)]
    else
      var s := DecimalString(n / 10) + [DigitChar(n % 10)];
      assert s[..|s| - 1] == DecimalString(n / 10);
      s
  }

  /** `s.padStart(width, fill)` with a one-character fill: `fill` repeated on the left up to `width`
      characters; a string already that long is returned as it is. */
  function PadStart(s: string, width: nat, fill: char): (r: string)
    ensures |r| == if |s| >= width then |s| else width
    ensures r[|r| - |s|..] == s
    ensures forall i :: 0 <= i < |r| - |s| ==> r[i] == fill
  {
    if |s| >= width then s else seq(width - |s|, _ => fill) + s
  }

  /** Zeros on the left do not change the number a numeral denotes. */
  lemma {:induction false} LeadingZerosValue(z: string, s: string)
    requires AllDigits(s) && forall i :: 0 <= i < |z| ==> z[i] == '0'
    ensures AllDigits(z + s) && DecimalValue(z + s) == DecimalValue(s)
    decreases |s|
  {
    if s == [] {
      assert z + s == z;
      ZerosValue(z);
    } else {
      var t := s[..|s| - 1];
      assert (z + s)[..|z + s| - 1] == z + t;
      LeadingZerosValue(z, t);
    }
  }

  lemma {:induction false} ZerosValue(z: string)
    requires forall i :: 0 <= i < |z| ==> z[i] == '0'
    ensures AllDigits(z) && DecimalValue(z) == 0
    decreases |z|
  {
    if z != [] {
      ZerosValue(z[..|z| - 1]);
    }
  }

  // ---------------------------------------------------------------------------------------------
  // Track durations
  // ---------------------------------------------------------------------------------------------

  /** Whole minutes of a duration in milliseconds: the number of full minutes it lasts. */
  function Minutes(ms: nat): (m: nat)
    ensures m * 60000 <= ms < m * 60000 + 60000
  {
    ms / 60000
  }

  /** Whole seconds left over after the minutes. */
  function Seconds(ms: nat): (r: nat)
    ensures r < 60
  {
    (ms % 60000) / 1000
  }

  /** The minutes and seconds shown are the duration rounded down to the whole second. */
  lemma DurationBounds(ms: nat)
    ensures Minutes(ms) * 60000 + Seconds(ms) * 1000 <= ms < Minutes(ms) * 60000 + Seconds(ms) * 1000 + 1000
    ensures Minutes(ms) * 60 + Seconds(ms) == ms / 1000
  {
    var m, r := ms / 60000, ms % 60000;
    assert ms == m * 60000 + r;
    var s, q := r / 1000, r % 1000;
    assert r == s * 1000 + q;
    assert ms == (m * 60 + s) * 1000 + q;
  }

  /** Minutes, a colon, and the seconds padded with '0' to two digits. */
  function Clock(minutes: nat, seconds: nat): string {
    DecimalString(minutes) + ":" + PadStart(DecimalString(seconds), 2, '0')
  }

  /** `formatDuration`: the clock reading of the whole minutes and seconds. It is the minutes' numeral,
      a colon and exactly two more characters, and it reads back as those minutes and seconds, so the
      two characters are the seconds' digits. */
  function FormatDuration(ms: nat): (s: string)
    ensures |s| == |DecimalString(Minutes(ms))| + 3
    ensures s[..|s| - 3] == DecimalString(Minutes(ms)) && s[|s| - 3] == ':'
    ensures ParseDuration(s) == Some((Minutes(ms), Seconds(ms)))
  {
    ClockParses(Minutes(ms), Seconds(ms));
    ClockShape(Minutes(ms), Seconds(ms));
    Clock(Minutes(ms), Seconds(ms))
  }

  /** A clock reading with seconds below 100 is the minutes' numeral, a colon and two characters. */
  lemma ClockShape(minutes: nat, seconds: nat)
    requires seconds < 100
    ensures |Clock(minutes, seconds)| == |DecimalString(minutes)| + 3
    ensures Clock(minutes, seconds)[..|DecimalString(minutes)|] == DecimalString(minutes)
    ensures Clock(minutes, seconds)[|DecimalString(minutes)|] == ':'
  {
    PaddedLength(seconds);
    JoinedShape(DecimalString(minutes), PadStart(DecimalString(seconds), 2, '0'));
  }

  lemma PaddedLength(seconds: nat)
    requires seconds < 100
    ensures |PadStart(DecimalString(seconds), 2, '0')| == 2
  {
  }

  lemma JoinedShape(m: string, p: string)
    requires |p| == 2
    ensures |m + ":" + p| == |m| + 3
    ensures (m + ":" + p)[..|m|] == m
    ensures (m + ":" + p)[|m|] == ':'
  {
  }

  /** Reading a formatted duration back: the digits before the first ':' and the digits after it. */
  function ParseDuration(s: string): (r: Option<(nat, nat)>)
    ensures r.Some? ==> ':' in s
  {
    match FirstIndexOf(s, ':')
    case None => None
    case Some(i) =>
      if AllDigits(s[..i]) && AllDigits(s[i + 1..]) then Some((DecimalValue(s[..i]), DecimalValue(s[i + 1..])))
      else None
  }

  /** Two numerals joined by a colon read back as the two numbers. */
  lemma ParseJoined(m: string, p: string)
    requires AllDigits(m) && AllDigits(p)
    ensures ParseDuration(m + ":" + p) == Some((DecimalValue(m), DecimalValue(p)))
  {
    var f := m + ":" + p;
    assert f[..|m|] == m && f[|m| + 1..] == p;
    assert forall k :: 0 <= k < |m| ==> f[k] == m[k] && IsDigit(m[k]);
    var r := FirstIndexOf(f, ':');
    assert f[|m|] == ':';
    assert r.Some? && r.value == |m|;
  }

  /** Seconds below 100, padded to two digits, are two digits that still read as the seconds. */
  lemma PaddedSeconds(seconds: nat)
    requires seconds < 100
    ensures |PadStart(DecimalString(seconds), 2, '0')| == 2
    ensures AllDigits(PadStart(DecimalString(seconds), 2, '0'))
    ensures DecimalValue(PadStart(DecimalString(seconds), 2, '0')) == seconds
  {
    var d := DecimalString(seconds);
    var p := PadStart(d, 2, '0');
    assert p == p[..|p| - |d|] + d;
    LeadingZerosValue(p[..|p| - |d|], d);
  }

  /** A clock reading with seconds below 100 reads back as its minutes and seconds. */
  lemma ClockParses(minutes: nat, seconds: nat)
    requires seconds < 100
    ensures ParseDuration(Clock(minutes, seconds)) == Some((minutes, seconds))
  {
    PaddedSeconds(seconds);
    ParseJoined(DecimalString(minutes), PadStart(DecimalString(seconds), 2, '0'));
  }

  /** Two durations are shown alike exactly when they agree to the whole second. */
  lemma FormatDurationSameSecond(a: nat, b: nat)
    ensures FormatDuration(a) == FormatDuration(b) <==> a / 1000 == b / 1000
  {
    if FormatDuration(a) == FormatDuration(b) {
      assert Minutes(a) == Minutes(b) && Seconds(a) == Seconds(b) by {
        assert ParseDuration(FormatDuration(a)) == ParseDuration(FormatDuration(b));
      }
      DurationBounds(a);
      DurationBounds(b);
    }
    if a / 1000 == b / 1000 {
      SameSecondSameClock(a, b);
    }
  }

  lemma SameSecondSameClock(a: nat, b: nat)
    requires a / 1000 == b / 1000
    ensures Minutes(a) == Minutes(b) && Seconds(a) == Seconds(b)
  {
    DurationBounds(a);
    DurationBounds(b);
    assert Minutes(a) == (a / 1000) / 60 && Minutes(b) == (b / 1000) / 60;
  }

  // ---------------------------------------------------------------------------------------------
  // Page state
  // ---------------------------------------------------------------------------------------------

  /** The signed-in user as the page reads it; an absent `spotify_connected` reads as false and an
      absent name or image as `None`. */
  datatype User = User(
    id: int,
    username: string,
    email: string,
    spotifyConnected: bool,
    spotifyDisplayName: Option<string>,
    spotifyProfileImage: Option<string>)

  /** One entry of a playlist, track or artist list. */
  datatype Item = Item(id: string, name: string)

  /** The Spotify profile summary the backend returns. */
  type SpotifyData = map<string, string>

  /** How a backend call ended: an `ok` answer with its body, another answer with its `error` field,
      or an exception. */
  datatype Fetch<T> = Ok(body: T) | NotOk(error: Option<string>) | Threw

  /** The list part of an `ok` answer: items present, the `items` field missing or null (read as
      `[]`), or the enclosing object missing, so that reading `items` throws. */
  datatype ListBody = Items(items: seq<Item>) | NoItems | NoList

  /** The four music lists. */
  datatype ListKind = Playlists | TopTracks | RecentlyPlayed | TopArtists

  /** All the state the handlers below change. */
  datatype PageState = PageState(
    spotifyData: Option<SpotifyData>,
    playlists: seq<Item>,
    topTracks: seq<Item>,
    recentlyPlayed: seq<Item>,
    topArtists: seq<Item>,
    isLoadingSpotifyData: bool,
    isLoadingMusic: bool)

  const InitialState := PageState(None, [], [], [], [], false, false)

  function ListOf(s: PageState, kind: ListKind): seq<Item> {
    match kind
    case Playlists => s.playlists
    case TopTracks => s.topTracks
    case RecentlyPlayed => s.recentlyPlayed
    case TopArtists => s.topArtists
  }

  /** `s` with the list of `kind` replaced. */
  function WithList(s: PageState, kind: ListKind, items: seq<Item>): (r: PageState)
    ensures ListOf(r, kind) == items
    ensures forall k :: k != kind ==> ListOf(r, k) == ListOf(s, k)
    ensures r.spotifyData == s.spotifyData
    ensures r.isLoadingSpotifyData == s.isLoadingSpotifyData && r.isLoadingMusic == s.isLoadingMusic
  {
    match kind
    case Playlists => s.(playlists := items)
    case TopTracks => s.(topTracks := items)
    case RecentlyPlayed => s.(recentlyPlayed := items)
    case TopArtists => s.(topArtists := items)
  }

  function FailMessage(kind: ListKind): string {
    match kind
    case Playlists => "Failed to load playlists"
    case TopTracks => "Failed to load top tracks"
    case RecentlyPlayed => "Failed to load recently played"
    case TopArtists => "Failed to load top artists"
  }

  function NetworkMessage(kind: ListKind): string {
    match kind
    case Playlists => "Network error while loading playlists"
    case TopTracks => "Network error while loading top tracks"
    case RecentlyPlayed => "Network error while loading recently played"
    case TopArtists => "Network error while loading top artists"
  }

  const DisconnectedMessage := "Spotify account disconnected successfully"
  const DisconnectFailedMessage := "Failed to disconnect Spotify"
  const NetworkErrorMessage := "Network error. Please try again."

  /** `data.error || fallback`: the error when it is a non-empty string, the fallback otherwise. */
  function ErrorOr(error: Option<string>, fallback: string): (m: string)
    ensures error.Some? && error.value != "" ==> m == error.value
    ensures error.None? || error.value == "" ==> m == fallback
    ensures fallback != "" ==> m != ""
  {
    if error.Some? && error.value != "" then error.value else fallback
  }

  /** What one list loader does once the user is connected: the new list, or the alert it raises. */
  datatype ListOutcome = Loaded(items: seq<Item>) | Alerted(message: string)

  function ListResult(kind: ListKind, response: Fetch<ListBody>): (r: ListOutcome)
    ensures r.Loaded? <==> response.Ok? && !response.body.NoList?
    ensures response.Ok? && response.body.Items? ==> r == Loaded(response.body.items)
    ensures response.Ok? && response.body.NoItems? ==> r == Loaded([])
    ensures response.NotOk? ==> r == Alerted(ErrorOr(response.error, FailMessage(kind)))
    ensures response.Threw? || (response.Ok? && response.body.NoList?) ==> r == Alerted(NetworkMessage(kind))
    ensures r.Alerted? ==> r.message != ""
  {
    match response
    case Ok(Items(items)) => Loaded(items)
    case Ok(NoItems) => Loaded([])
    case Ok(NoList) => Alerted(NetworkMessage(kind))
    case NotOk(error) => Alerted(ErrorOr(error, FailMessage(kind)))
    case Threw => Alerted(NetworkMessage(kind))
  }

  /** A list loader: nothing at all happens for a user without Spotify; otherwise the list of `kind`
      is replaced on success, an alert is raised on failure, and the music loading flag ends false
      either way. Nothing else changes. */
  function LoadList(s: PageState, user: User, kind: ListKind, response: Fetch<ListBody>)
    : (r: (PageState, Option<string>))
    ensures !user.spotifyConnected ==> r == (s, None)
    ensures user.spotifyConnected ==> !r.0.isLoadingMusic
    ensures user.spotifyConnected ==> (r.1.None? <==> ListResult(kind, response).Loaded?)
    ensures ListOf(r.0, kind) ==
      if user.spotifyConnected && ListResult(kind, response).Loaded? then ListResult(kind, response).items
      else ListOf(s, kind)
    ensures forall k :: k != kind ==> ListOf(r.0, k) == ListOf(s, k)
    ensures r.0.spotifyData == s.spotifyData && r.0.isLoadingSpotifyData == s.isLoadingSpotifyData
  {
    if !user.spotifyConnected then (s, None)
    else
      var loading := s.(isLoadingMusic := true);
      match ListResult(kind, response)
      case Loaded(items) => (WithList(loading, kind, items).(isLoadingMusic := false), None)
      case Alerted(message) => (loading.(isLoadingMusic := false), Some(message))
  }

  /** The profile loader: like the list loaders, but a failure is only logged. */
  function LoadProfile(s: PageState, user: User, response: Fetch<Option<SpotifyData>>): (r: PageState)
    ensures !user.spotifyConnected ==> r == s
    ensures user.spotifyConnected ==> !r.isLoadingSpotifyData
    ensures r.spotifyData == if user.spotifyConnected && response.Ok? then response.body else s.spotifyData
    ensures forall k :: ListOf(r, k) == ListOf(s, k)
    ensures r.isLoadingMusic == s.isLoadingMusic
  {
    if !user.spotifyConnected then s
    else
      var loading := s.(isLoadingSpotifyData := true);
      var loaded := if response.Ok? then loading.(spotifyData := response.body) else loading;
      loaded.(isLoadingSpotifyData := false)
  }

  /** The state after a successful disconnect: no profile and four empty lists; the loading flags are
      kept. */
  function Cleared(s: PageState): (r: PageState)
    ensures r.spotifyData.None? && forall k :: ListOf(r, k) == []
    ensures r.isLoadingSpotifyData == s.isLoadingSpotifyData && r.isLoadingMusic == s.isLoadingMusic
  {
    s.(spotifyData := None, playlists := [], topTracks := [], recentlyPlayed := [], topArtists := [])
  }

  /** The user record handed to the parent after a disconnect: the same account without Spotify. */
  function DisconnectedUser(u: User): (r: User)
    ensures !r.spotifyConnected && r.spotifyDisplayName.None? && r.spotifyProfileImage.None?
    ensures r.id == u.id && r.username == u.username && r.email == u.email
  {
    u.(spotifyConnected := false, spotifyDisplayName := None, spotifyProfileImage := None)
  }

  /** Once the parent has taken the disconnected record, every loader leaves the page as it is and
      raises nothing. */
  lemma DisconnectedLoadersIdle(s: PageState, u: User, kind: ListKind, lists: Fetch<ListBody>,
                                profile: Fetch<Option<SpotifyData>>)
    ensures LoadList(s, DisconnectedUser(u), kind, lists) == (s, None)
    ensures LoadProfile(s, DisconnectedUser(u), profile) == s
  {
  }

  /** Disconnecting is idempotent, on the page and on the user record. */
  lemma DisconnectIdempotent(s: PageState, u: User)
    ensures Cleared(Cleared(s)) == Cleared(s)
    ensures DisconnectedUser(DisconnectedUser(u)) == DisconnectedUser(u)
  {
  }

  /** Loading a list twice with the same answer is loading it once. */
  lemma LoadListIdempotent(s: PageState, user: User, kind: ListKind, response: Fetch<ListBody>)
    ensures LoadList(LoadList(s, user, kind, response).0, user, kind, response).0
            == LoadList(s, user, kind, response).0
  {
  }

  /** Loaders of different lists commute: each touches its own list and the shared flag ends false. */
  lemma LoadListsCommute(s: PageState, user: User, k1: ListKind, r1: Fetch<ListBody>, k2: ListKind,
                         r2: Fetch<ListBody>)
    requires k1 != k2
    ensures LoadList(LoadList(s, user, k1, r1).0, user, k2, r2).0
            == LoadList(LoadList(s, user, k2, r2).0, user, k1, r1).0
  {
  }

  /** The landing page's state. `user` is the property the page was rendered with. */
  class LandingPage {
    const user: User
    var spotifyData: Option<SpotifyData>
    var playlists: seq<Item>
    var topTracks: seq<Item>
    var recentlyPlayed: seq<Item>
    var topArtists: seq<Item>
    var isLoadingSpotifyData: bool
    var isLoadingMusic: bool

    function State(): PageState
      reads this
    {
      PageState(spotifyData, playlists, topTracks, recentlyPlayed, topArtists, isLoadingSpotifyData,
                isLoadingMusic)
    }

    constructor (user: User)
      ensures this.user == user && State() == InitialState
    {
      this.user := user;
      spotifyData := None;
      playlists := [];
      topTracks := [];
      recentlyPlayed := [];
      topArtists := [];
      isLoadingSpotifyData := false;
      isLoadingMusic := false;
    }

    /** `loadSpotifyData`. */
    method LoadSpotifyData(response: Fetch<Option<SpotifyData>>)
      modifies this
      ensures State() == LoadProfile(old(State()), user, response)
    {
      if !user.spotifyConnected {
        return;
      }
      isLoadingSpotifyData := true;
      if response.Ok? {
        spotifyData := response.body;
      }
      isLoadingSpotifyData := false;
    }

    /** `loadPlaylists`, `loadTopTracks`, `loadRecentlyPlayed` and `loadTopArtists`, which differ only
        in the list they fill and their messages; the result is the alert raised, if any. */
    method LoadMusic(kind: ListKind, response: Fetch<ListBody>) returns (alert: Option<string>)
      modifies this
      ensures (State(), alert) == LoadList(old(State()), user, kind, response)
    {
      if !user.spotifyConnected {
        return None;
      }
      isLoadingMusic := true;
      match ListResult(kind, response) {
        case Loaded(items) =>
          match kind {
            case Playlists => playlists := items;
            case TopTracks => topTracks := items;
            case RecentlyPlayed => recentlyPlayed := items;
            case TopArtists => topArtists := items;
          }
          alert := None;
        case Alerted(message) =>
          alert := Some(message);
      }
      isLoadingMusic := false;
    }

    /** `handleSpotifyDisconnect`: after the confirmation dialog (`confirmed`) and the backend call, a
        success clears the page and, when the parent listens (`notifyParent`), hands it the
        disconnected user record; a failure only raises an alert. The results are the alert and the
        record handed on. */
    method HandleSpotifyDisconnect(confirmed: bool, response: Fetch<()>, notifyParent: bool)
      returns (alert: Option<string>, updatedUser: Option<User>)
      modifies this
      ensures !confirmed ==> State() == old(State()) && alert.None? && updatedUser.None?
      ensures confirmed && response.Ok? ==>
        State() == Cleared(old(State())) && alert == Some(DisconnectedMessage) &&
        updatedUser == if notifyParent then Some(DisconnectedUser(user)) else None
      ensures confirmed && response.NotOk? ==>
        State() == old(State()) && updatedUser.None? &&
        alert == Some(ErrorOr(response.error, DisconnectFailedMessage))
      ensures confirmed && response.Threw? ==>
        State() == old(State()) && updatedUser.None? && alert == Some(NetworkErrorMessage)
    {
      alert, updatedUser := None, None;
      if !confirmed {
        return;
      }
      match response {
        case Ok(_) =>
          alert := Some(DisconnectedMessage);
          spotifyData := None;
          playlists := [];
          topTracks := [];
          recentlyPlayed := [];
          topArtists := [];
          if notifyParent {
            updatedUser := Some(DisconnectedUser(user));
          }
        case NotOk(error) =>
          alert := Some(ErrorOr(error, DisconnectFailedMessage));
        case Threw =>
          alert := Some(NetworkErrorMessage);
      }
    }
  }
}
