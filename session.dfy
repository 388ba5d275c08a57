/**
 * The client's session with the streaming service: the token fields of the
 * API client, the liked library and current playback held by the service,
 * the requests the service has received, and how many refresh timers and
 * hotkey listeners the app has started. The OAuth callback, one tick of the
 * refresh timer and one run of the hotkey handler update it in place.
 */
module Session {
  import opened Wrappers
  import opened Playback
  import opened Hotkeys
  import opened Toggle

  /** The token pair the authorization-code grant returns. */
  datatype TokenPair = TokenPair(accessToken: string, refreshToken: string)

  const NoCodeReceived := "No code received."
  /** The text of the confirmation page; its HTML wrapper and self-closing script are not modelled. */
  const Authenticated := "Spotify authenticated! You can close this page."
  const AuthorizationFailed := "Error during authorization. Check console."

  /** The query parameter `code` is missing when absent or empty (both falsy). */
  predicate MissingCode(code: Option<string>)
  {
    code.None? || code.value == ""
  }

  class SpotifySession {
    var accessToken: Option<string>
    var refreshToken: Option<string>
    /** Ids of the tracks in the user's Liked Songs. */
    var liked: set<string>
    /** What the service reports as currently playing. */
    var playing: Option<Track>
    /** Every request the service has received, oldest first. */
    var calls: seq<Call>
    var refreshTimers: nat
    var hotkeyListeners: nat

    /**
     * Timers and listeners are started together, and only once a token pair
     * is held, so the hotkey handler never runs without a token.
     */
    ghost predicate Valid()
      reads this
    {
      && refreshTimers == hotkeyListeners
      && (hotkeyListeners > 0 ==> accessToken.Some? && refreshToken.Some?)
    }

    /** A fresh client against a service with the given library and playback. */
    constructor (liked: set<string>, playing: Option<Track>)
      ensures Valid()
      ensures accessToken == None && refreshToken == None
      ensures this.liked == liked && this.playing == playing
      ensures calls == [] && refreshTimers == 0 && hotkeyListeners == 0
    {
      accessToken, refreshToken := None, None;
      this.liked, this.playing := liked, playing;
      calls := [];
      refreshTimers, hotkeyListeners := 0, 0;
    }

    /**
     * GET /callback?code=...: without a code, answers so and does nothing
     * else; otherwise exchanges the code, and on success stores both tokens
     * and starts a refresh timer and a hotkey listener; a failed exchange
     * leaves the tokens as they were.
     */
    method Callback(code: Option<string>, grant: Result<TokenPair>) returns (response: string)
      requires Valid()
      modifies this`accessToken, this`refreshToken, this`calls, this`refreshTimers, this`hotkeyListeners
      ensures Valid()
      ensures MissingCode(code) ==>
                && response == NoCodeReceived
                && unchanged(this)
      ensures !MissingCode(code) ==> calls == old(calls) + [CodeGrant(code.value)]
      ensures !MissingCode(code) && grant.Ok? ==>
                && response == Authenticated
                && accessToken == Some(grant.value.accessToken)
                && refreshToken == Some(grant.value.refreshToken)
                && refreshTimers == old(refreshTimers) + 1
                && hotkeyListeners == old(hotkeyListeners) + 1
      ensures !MissingCode(code) && grant.Err? ==>
                && response == AuthorizationFailed
                && accessToken == old(accessToken) && refreshToken == old(refreshToken)
                && refreshTimers == old(refreshTimers) && hotkeyListeners == old(hotkeyListeners)
    {
      if MissingCode(code) {
        return NoCodeReceived;
      }
      calls := calls + [CodeGrant(code.value)];
      match grant
      case Err(_) =>
        response := AuthorizationFailed;
      case Ok(pair) =>
        accessToken := Some(pair.accessToken);
        refreshToken := Some(pair.refreshToken);
        refreshTimers := refreshTimers + 1;
        hotkeyListeners := hotkeyListeners + 1;
        response := Authenticated;
    }

    /**
     * One tick of a refresh timer: asks for a new access token with the
     * refresh token and, on success, replaces the access token only; a
     * failure is logged and changes nothing.
     */
    method Refresh(outcome: Result<string>)
      requires Valid() && refreshTimers > 0
      modifies this`accessToken, this`calls
      ensures Valid()
      ensures calls == old(calls) + [RefreshGrant(refreshToken)]
      ensures accessToken == if outcome.Ok? then Some(outcome.value) else old(accessToken)
      ensures refreshToken == old(refreshToken) && liked == old(liked)
    {
      calls := calls + [RefreshGrant(refreshToken)];
      if outcome.Ok? {
        accessToken := Some(outcome.value);
      }
    }

    /**
     * One run of the hotkey handler for key event `e` with held keys `down`;
     * `fault` names the step that throws, if any. Returns the notification
     * shown, if any.
     */
    method OnKey(e: KeyEvent, down: map<string, bool>, fault: Option<Fault>) returns (note: Option<string>)
      requires Valid() && hotkeyListeners > 0
      modifies this`liked, this`calls
      ensures Valid()
      ensures var r := Handle(accessToken, old(liked), playing, e, down, fault);
              liked == r.liked && calls == old(calls) + r.calls && note == r.note
      // the handler only runs once a token is held, and every request it sends carries one
      ensures forall k :: |old(calls)| <= k < |calls| ==> calls[k].Api? && calls[k].bearer.Some?
    {
      var intent := ChordIntent(e, down);
      if intent.None? {
        return None;
      }
      calls := calls + [Api(accessToken, GetMyCurrentPlayingTrack)];
      if FailsAt(fault, PlaybackQuery) {
        return Some(ErrorNote(fault.value));
      }
      if playing.None? {
        return Notify(fault, NothingPlaying);
      }
      var trackId := playing.value.id;
      var info := SongInfo(playing.value);
      calls := calls + [Api(accessToken, ContainsMySavedTracks([trackId]))];
      if FailsAt(fault, MembershipQuery) {
        return Some(ErrorNote(fault.value));
      }
      var isLiked := trackId in liked;
      if intent.value == Add {
        if isLiked {
          note := Notify(fault, "Already in Liked Songs:\n" + info);
        } else {
          calls := calls + [Api(accessToken, AddToMySavedTracks([trackId]))];
          if FailsAt(fault, LibraryUpdate) {
            return Some(ErrorNote(fault.value));
          }
          liked := liked + {trackId};
          note := Notify(fault, "Added to Liked Songs:\n" + info);
        }
      } else {
        if !isLiked {
          note := Notify(fault, "Not in Liked Songs:\n" + info);
        } else {
          calls := calls + [Api(accessToken, RemoveFromMySavedTracks([trackId]))];
          if FailsAt(fault, LibraryUpdate) {
            return Some(ErrorNote(fault.value));
          }
          liked := liked - {trackId};
          note := Notify(fault, "Removed from Liked Songs:\n" + info);
        }
      }
    }
  }

  /**
   * Track "abc123", "Song X" by "Artist Y", is playing and not liked.
   * Ctrl+Alt+A adds it; a refresh then replaces the access token and keeps
   * the refresh token; Ctrl+Alt+R removes it, with requests carrying the new
   * token.
   */
  method AddRefreshRemoveScenario()
  {
    var s := new SpotifySession({}, Some(SongX));
    var response := s.Callback(Some("code"), Ok(TokenPair("access-1", "refresh-1")));
    assert response == Authenticated;

    AddExample(Some("access-1"));
    var note := s.OnKey(KeyEvent("DOWN", "A"), CtrlAlt, None);
    assert note == Some("Added to Liked Songs:\nSong X - Artist Y");
    assert s.liked == {"abc123"};

    s.Refresh(Ok("access-2"));
    assert s.accessToken == Some("access-2") && s.refreshToken == Some("refresh-1");

    RemoveExample(Some("access-2"));
    note := s.OnKey(KeyEvent("DOWN", "R"), CtrlAlt, None);
    assert note == Some("Removed from Liked Songs:\nSong X - Artist Y");
    assert s.calls[|s.calls| - 1] == Api(Some("access-2"), RemoveFromMySavedTracks(["abc123"]));
    assert s.liked == {};
  }
}
