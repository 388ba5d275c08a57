# Spotify Like Toggle — a Dafny model of the hotkey handler and token updates

Spotify Like Toggle is a desktop utility: after an OAuth login it listens for
two global key chords, Ctrl+Alt+A and Ctrl+Alt+R, and adds the currently
playing track to the user's Liked Songs or removes it from them, showing a
desktop notification with the outcome. A timer refreshes the access token
every 50 minutes.

This project models the part of `spotify-like-toggle.js` that carries logic:

- `playback.dfy` (module `Playback`): the track as the playback query returns
  it and the display string `name - artist1, artist2`, with `Join` following
  `Array.prototype.join`; lemmas read the display string off character range
  by character range.
- `hotkeys.dfy` (module `Hotkeys`): the chord filter (key-down only, a Ctrl
  and an Alt held, key `"A"` or `"R"`).
- `toggle.dfy` (module `Toggle`): one run of the hotkey handler as a pure
  function `Handle` of the access token, the liked set, the playing track,
  the key event and the step that throws (if any). It returns the new liked
  set, the requests sent to the service and the notification text. Lemmas
  cover the four-way decision table, the error catch, the add and remove of
  the example track "Song X", pressing a chord twice, and any sequence of
  presses (`LastChordDecides`).
- `session.dfy` (module `Session`): the class `SpotifySession`. It holds the
  API client's `accessToken`/`refreshToken` fields, the service's liked set
  and current playback, the log of requests the service received, and how
  many refresh timers and hotkey listeners have been started. `Callback`,
  `Refresh` and `OnKey` update it in place. `OnKey` is proved equal to
  `Handle`. `AddRefreshRemoveScenario` plays track `abc123`, "Song X" by
  "Artist Y", not liked: Ctrl+Alt+A adds it, a refresh replaces the access
  token, and Ctrl+Alt+R removes it with a request carrying the new token.

The remote service is abstract. The liked library is a set of track ids and
playback is an optional track. A request is an entry appended to `calls`,
carrying the bearer token the client held when it was sent. An error thrown
by a remote call or by the notifier is an input `fault` naming the step that
throws and the error's message. A step that is never reached cannot throw.
A notification is the returned message text.

## Model

| member | source | states |
|---|---|---|
| Playback.SongInfo | spotify-like-toggle.js:120 | the display string starts with the track name followed by `" - "`; with no artists it is exactly that |
| Playback.JoinAt | spotify-like-toggle.js:120 | in the joined artist list, part `i` sits at its offset, the separator follows every part but the last, and the last part ends the string, so the parts appear in their given order |
| Playback.SongInfoArtistAt | spotify-like-toggle.js:120 | artist `i`'s name appears in the display string after `name - ` at its place in the list, followed by `", "` unless it is the last, which ends the string |
| Hotkeys.ChordIntent | spotify-like-toggle.js:105-111 | an intent is produced only for a `"DOWN"` event with LEFT or RIGHT CTRL held, LEFT or RIGHT ALT held, and key `"A"` (add) or `"R"` (remove); otherwise none |
| Hotkeys.ChordIgnoresOtherKeys | spotify-like-toggle.js:107-108 | only the four modifier entries of the held-key table affect the outcome |
| Toggle.Handle | spotify-like-toggle.js:111-141 | a non-chord event sends nothing, changes nothing and shows nothing; a chord always shows one notification; with nothing playing at most the playback query is sent and the library is unchanged; only the current track's membership can change, and only through a final add/remove request for exactly `[trackId]`; every request carries the client's current access token |
| Toggle.HandleAdd | spotify-like-toggle.js:123-129 | key A: afterwards the track is liked; if it already was, no add is sent and the note is `Already in Liked Songs:\n`+info, otherwise one add of `[trackId]` and `Added to Liked Songs:\n`+info |
| Toggle.HandleRemove | spotify-like-toggle.js:130-136 | key R: afterwards the track is not liked; if it was not, no remove is sent and the note is `Not in Liked Songs:\n`+info, otherwise one remove of `[trackId]` and `Removed from Liked Songs:\n`+info |
| Toggle.HandleNothingPlaying | spotify-like-toggle.js:113-117 | with nothing playing a chord sends only the playback query, leaves the library unchanged and shows `No track currently playing` |
| Toggle.HandleFault | spotify-like-toggle.js:112-140 | a thrown error is caught. A throw from the playback query or the notification always shows `Error: `+message; after a playback-query throw only that query was sent, and a notification throw keeps every request of the error-free run; from the membership query it does so whenever a track is playing, sending only the first two requests; from the update it does so whenever an add or remove is due; a step that is not reached leaves the error-free run. The requests are a prefix of the error-free run's. The library is unchanged unless the throw comes after the update completed |
| Toggle.SecondPressChangesNothing | spotify-like-toggle.js:121-136 | repeating the same chord on the same track sends no add/remove, keeps the library, and shows the `Already in` / `Not in` note |
| Toggle.ExampleInputs | spotify-like-toggle.js:107-120 | Ctrl+Alt+A and Ctrl+Alt+R (left Ctrl, left Alt held) give Add and Remove, and track `abc123` "Song X" by "Artist Y" displays as `Song X - Artist Y` |
| Toggle.AddExample | spotify-like-toggle.js:113-129 | Ctrl+Alt+A on "Song X", not liked, sends the playback query, the membership query and one add of `["abc123"]`, likes it, and shows `Added to Liked Songs:\nSong X - Artist Y` |
| Toggle.RemoveExample | spotify-like-toggle.js:113-136 | Ctrl+Alt+R on "Song X", liked, sends the playback query, the membership query and one remove of `["abc123"]`, unlikes it, and shows `Removed from Liked Songs:\nSong X - Artist Y` |
| Toggle.LastChordDecides | spotify-like-toggle.js:103-142 | after any sequence of presses while one track plays, whichever runs throw, other tracks keep their status, and with nothing playing the library never changes; when no run throws, the track is liked exactly when the last chord was A (unchanged if there was no chord) |
| Session.SpotifySession.constructor | spotify-like-toggle.js:38 | a new client holds no tokens and has started no timer or listener |
| Session.SpotifySession.Callback | spotify-like-toggle.js:45-70 | a missing or empty `code` answers `No code received.` and changes nothing; otherwise the code is exchanged; success sets both tokens, starts one refresh timer and one hotkey listener, and answers the confirmation page; failure keeps the tokens and answers the error text |
| Session.SpotifySession.Refresh | spotify-like-toggle.js:85-93 | one timer tick asks for a refresh with the stored refresh token; success replaces only the access token; failure changes no token; the refresh token is kept either way |
| Session.SpotifySession.OnKey | spotify-like-toggle.js:103-142 | the new liked set, the requests appended to the log and the returned notification are those of `Handle` for the current token, library and playback; every request it sends carries an access token; the session invariant (listeners only with tokens) is kept |

## Left out

- The Express server, `app.listen`, opening the browser and `createAuthorizeURL` (lines 37, 39, 72-77): HTTP and OS plumbing with no state of the model.
- Reading `config.ini` and the scope list (lines 19-31): configuration input only.
- The Spotify HTTP calls: each is a request appended to `calls` plus a read or write of the abstract liked set, playback or token fields. The body of a failed response is the `fault` input or an `Err` result.
- `node-notifier`: a notification is the returned message text. The fixed title and icon are not modelled.
- The confirmation page: `Callback` answers only its text, not the HTML with the self-closing script.
- `console.log`/`console.error` lines: logging only.
- The `GlobalKeyboardListener` hook: a key event is passed in as a `KeyEvent` and a held-key table.
- The 50-minute `setInterval` (line 93): `Refresh` is one tick. The model counts started timers but has no wall-clock time.
- Concurrency: each handler run, callback and refresh tick is one atomic step. Overlapping runs of the async handler, including the read-then-act race between two quick presses, are not modelled. A second successful callback starts a second timer and listener (counted in `refreshTimers`/`hotkeyListeners`). Two listeners would run the handler twice per key, concurrently, which is also not modelled.
- Session.SpotifySession.Callback: an error thrown after the tokens are set (starting the timer or listener, lines 55-56) is not modelled; only a failing code exchange is.
- A remote add or remove that the service applies but whose response is lost is not modelled: a failing update call leaves the library unchanged.
- Session.SpotifySession.Refresh: the refreshed access token is whatever the service returns. The model does not promise that it differs from the old one.
- An error thrown by the notifier inside the `catch` block (line 139) would escape the handler; the model assumes the error notification is shown.
- `main.js` (tray, About window, single-instance lock, startup shortcut) and `zip-dist.js` (packaging) are not part of this model.
