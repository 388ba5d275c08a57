/**
 * One run of the hotkey handler as a pure function of what the remote
 * service holds: the chord filter, the "nothing playing" guard, the
 * membership query for the current track, the four-way decision between
 * add, remove and a notice, and the catch that turns any thrown error into
 * an "Error: " notification.
 */
module Toggle {
  import opened Wrappers
  import opened Playback
  import opened Hotkeys

  /** The user-scoped requests the handler sends to the remote service. */
  datatype Request =
    | GetMyCurrentPlayingTrack
    | ContainsMySavedTracks(ids: seq<string>)
    | AddToMySavedTracks(ids: seq<string>)
    | RemoveFromMySavedTracks(ids: seq<string>)
  {
    predicate IsUpdate() { AddToMySavedTracks? || RemoveFromMySavedTracks? }
  }

  /**
   * A request as the service receives it. User-scoped requests carry the
   * bearer token the client held; the two token-endpoint grants are sent by
   * the OAuth callback and the refresh timer (module Session). All of them
   * share this type because the service sees one stream of requests, and
   * Session's log interleaves the handler's requests with the grants.
   */
  datatype Call =
    | Api(bearer: Option<string>, request: Request)
    | CodeGrant(code: string)
    | RefreshGrant(refreshToken: Option<string>)

  /** The step of the handler whose remote call or notification throws. */
  datatype Stage = PlaybackQuery | MembershipQuery | LibraryUpdate | Notification

  /** A thrown error: where it happens and its message. */
  datatype Fault = Fault(stage: Stage, message: string)

  /** What one handler run leaves behind: the liked set, the requests sent, the notification shown. */
  datatype Effect = Effect(liked: set<string>, calls: seq<Call>, note: Option<string>)

  const NothingPlaying := "No track currently playing"

  predicate FailsAt(fault: Option<Fault>, stage: Stage)
  {
    fault.Some? && fault.value.stage == stage
  }

  function ErrorNote(fault: Fault): string
  {
    "Error: " + fault.message
  }

  /** The notification shown for `message`, or the error one when showing it throws. */
  function Notify(fault: Option<Fault>, message: string): Option<string>
  {
    Some(if FailsAt(fault, Notification) then ErrorNote(fault.value) else message)
  }

  /** The first line of the notification for each row of the decision table. */
  function Headline(intent: Intent, wasLiked: bool): string
  {
    match intent
    case Add => if wasLiked then "Already in Liked Songs:\n" else "Added to Liked Songs:\n"
    case Remove => if wasLiked then "Removed from Liked Songs:\n" else "Not in Liked Songs:\n"
  }

  /**
   * One handler run: `tok` is the access token the client holds, `lib` the
   * liked set before the run, `playing` what the service reports as playing,
   * `fault` the step that throws, if any.
   */
  function Handle(tok: Option<string>, lib: set<string>, playing: Option<Track>,
                  e: KeyEvent, down: map<string, bool>, fault: Option<Fault>): (r: Effect)
    // a non-chord event sends nothing, changes nothing and shows nothing
    ensures ChordIntent(e, down).None? ==> r == Effect(lib, [], None)
    // every chord shows exactly one notification
    ensures ChordIntent(e, down).Some? ==> r.note.Some?
    // with nothing playing only the playback query is sent and the library is untouched
    ensures playing.None? ==> r.liked == lib && r.calls <= [Api(tok, GetMyCurrentPlayingTrack)]
    // only the current track's membership can change
    ensures playing.Some? ==> r.liked - {playing.value.id} == lib - {playing.value.id}
    // every request is made with the token the client holds
    ensures forall k :: 0 <= k < |r.calls| ==> r.calls[k].Api? && r.calls[k].bearer == tok
    // an add or remove is the last request, and names exactly the current track
    ensures forall k :: 0 <= k < |r.calls| && r.calls[k].request.IsUpdate() ==>
              k == |r.calls| - 1 && playing.Some? && r.calls[k].request.ids == [playing.value.id]
    // the library changes only through an add or remove request that was sent
    ensures r.liked != lib ==> |r.calls| == 3 && r.calls[2].request.IsUpdate()
  {
    match ChordIntent(e, down)
    case None => Effect(lib, [], None)
    case Some(intent) =>
      var asked := [Api(tok, GetMyCurrentPlayingTrack)];
      if FailsAt(fault, PlaybackQuery) then Effect(lib, asked, Some(ErrorNote(fault.value)))
      else match playing
      case None => Effect(lib, asked, Notify(fault, NothingPlaying))
      case Some(t) =>
        var info := SongInfo(t);
        var checked := asked + [Api(tok, ContainsMySavedTracks([t.id]))];
        if FailsAt(fault, MembershipQuery) then Effect(lib, checked, Some(ErrorNote(fault.value)))
        else
          var isLiked := t.id in lib;
          if intent == Add && !isLiked then
            var sent := checked + [Api(tok, AddToMySavedTracks([t.id]))];
            if FailsAt(fault, LibraryUpdate) then Effect(lib, sent, Some(ErrorNote(fault.value)))
            else Effect(lib + {t.id}, sent, Notify(fault, Headline(Add, false) + info))
          else if intent == Remove && isLiked then
            var sent := checked + [Api(tok, RemoveFromMySavedTracks([t.id]))];
            if FailsAt(fault, LibraryUpdate) then Effect(lib, sent, Some(ErrorNote(fault.value)))
            else Effect(lib - {t.id}, sent, Notify(fault, Headline(Remove, true) + info))
          else
            Effect(lib, checked, Notify(fault, Headline(intent, isLiked) + info))
  }

  /** Key "A" on a playing track, no error: the track ends up liked, added only if it was not. */
  lemma HandleAdd(tok: Option<string>, lib: set<string>, t: Track,
                  e: KeyEvent, down: map<string, bool>)
    requires ChordIntent(e, down) == Some(Add)
    ensures var r := Handle(tok, lib, Some(t), e, down, None);
            && r.liked == lib + {t.id}
            && r.calls == [Api(tok, GetMyCurrentPlayingTrack), Api(tok, ContainsMySavedTracks([t.id]))]
                          + (if t.id in lib then [] else [Api(tok, AddToMySavedTracks([t.id]))])
            && r.note == Some((if t.id in lib then "Already in Liked Songs:\n" else "Added to Liked Songs:\n") + SongInfo(t))
  {
  }

  /** Key "R" on a playing track, no error: the track ends up not liked, removed only if it was. */
  lemma HandleRemove(tok: Option<string>, lib: set<string>, t: Track,
                     e: KeyEvent, down: map<string, bool>)
    requires ChordIntent(e, down) == Some(Remove)
    ensures var r := Handle(tok, lib, Some(t), e, down, None);
            && r.liked == lib - {t.id}
            && r.calls == [Api(tok, GetMyCurrentPlayingTrack), Api(tok, ContainsMySavedTracks([t.id]))]
                          + (if t.id in lib then [Api(tok, RemoveFromMySavedTracks([t.id]))] else [])
            && r.note == Some((if t.id in lib then "Removed from Liked Songs:\n" else "Not in Liked Songs:\n") + SongInfo(t))
  {
  }

  /** With nothing playing, a chord only queries playback and says so. */
  lemma HandleNothingPlaying(tok: Option<string>, lib: set<string>,
                             e: KeyEvent, down: map<string, bool>)
    requires ChordIntent(e, down).Some?
    ensures Handle(tok, lib, None, e, down, None) ==
            Effect(lib, [Api(tok, GetMyCurrentPlayingTrack)], Some(NothingPlaying))
  {
  }

  /**
   * A thrown error is caught. The step that throws is reached by every chord
   * for the playback query and the notification, by a chord on a playing
   * track for the membership query, and only when an add or remove is due for
   * the update; when it is reached the run shows the error's message, and
   * when it is not the run is the error-free one. Requests after the
   * throwing one are never sent, and an error before the
   * notification leaves the library as it was; one thrown by the
   * notification keeps whatever the update did.
   */
  lemma HandleFault(tok: Option<string>, lib: set<string>, playing: Option<Track>,
                    e: KeyEvent, down: map<string, bool>, fault: Fault)
    requires ChordIntent(e, down).Some?
    ensures var r := Handle(tok, lib, playing, e, down, Some(fault));
            var clean := Handle(tok, lib, playing, e, down, None);
            && (r.note == Some(ErrorNote(fault)) || r == clean)
            && (fault.stage == PlaybackQuery || fault.stage == Notification ==> r.note == Some(ErrorNote(fault)))
            && (fault.stage == PlaybackQuery ==> r.calls == [Api(tok, GetMyCurrentPlayingTrack)])
            && (fault.stage == Notification ==> r.calls == clean.calls)
            && (fault.stage == MembershipQuery && playing.Some? ==>
                  r.note == Some(ErrorNote(fault)) && r.calls == clean.calls[..2])
            && (fault.stage == LibraryUpdate && |clean.calls| == 3 ==>
                  r.note == Some(ErrorNote(fault)) && r.calls == clean.calls)
            && (fault.stage == MembershipQuery && playing.None? ==> r == clean)
            && (fault.stage == LibraryUpdate && |clean.calls| < 3 ==> r == clean)
            && r.calls <= clean.calls
            && (fault.stage != Notification ==> r.liked == lib)
            && (fault.stage == Notification ==> r.liked == clean.liked)
  {
    var intent := ChordIntent(e, down).value;
    if playing.Some? {
      var t := playing.value;
      var wasLiked := t.id in lib;
      var checked := [Api(tok, GetMyCurrentPlayingTrack), Api(tok, ContainsMySavedTracks([t.id]))];
      if (intent == Add) != wasLiked {
        assert |Handle(tok, lib, playing, e, down, None).calls| == 3;
      } else {
        assert Handle(tok, lib, playing, e, down, None).calls == checked;
      }
    }
  }

  /** Pressing the same chord twice: the second run finds the work done and sends no update. */
  lemma SecondPressChangesNothing(tok: Option<string>, lib: set<string>, t: Track,
                                  e: KeyEvent, down: map<string, bool>)
    requires ChordIntent(e, down).Some?
    ensures var first := Handle(tok, lib, Some(t), e, down, None);
            var second := Handle(tok, first.liked, Some(t), e, down, None);
            && second.liked == first.liked
            && second.calls == [Api(tok, GetMyCurrentPlayingTrack), Api(tok, ContainsMySavedTracks([t.id]))]
            && second.note == Some(Headline(ChordIntent(e, down).value, ChordIntent(e, down) == Some(Add)) + SongInfo(t))
  {
  }

  /** Track "abc123", "Song X" by "Artist Y", the track of the two examples below. */
  const SongX := Track("abc123", "Song X", [Artist("Artist Y")])

  /** Left Ctrl and left Alt held. */
  const CtrlAlt := map[LeftCtrl := true, LeftAlt := true]

  /** The two chords of the examples, and the display string of "Song X". */
  lemma ExampleInputs()
    ensures ChordIntent(KeyEvent("DOWN", "A"), CtrlAlt) == Some(Add)
    ensures ChordIntent(KeyEvent("DOWN", "R"), CtrlAlt) == Some(Remove)
    ensures SongInfo(SongX) == "Song X - Artist Y"
  {
    assert Held(CtrlAlt, LeftCtrl) && Held(CtrlAlt, LeftAlt);
    assert ArtistNames(SongX.artists) == ["Artist Y"];
  }

  /** Ctrl+Alt+A on "Song X", not liked: one add of ["abc123"] and the "Added" note. */
  lemma AddExample(tok: Option<string>)
    ensures Handle(tok, {}, Some(SongX), KeyEvent("DOWN", "A"), CtrlAlt, None) ==
            Effect({"abc123"},
                   [Api(tok, GetMyCurrentPlayingTrack), Api(tok, ContainsMySavedTracks(["abc123"])),
                    Api(tok, AddToMySavedTracks(["abc123"]))],
                   Some("Added to Liked Songs:\nSong X - Artist Y"))
  {
    ExampleInputs();
    HandleAdd(tok, {}, SongX, KeyEvent("DOWN", "A"), CtrlAlt);
    assert "Added to Liked Songs:\n" + "Song X - Artist Y" == "Added to Liked Songs:\nSong X - Artist Y";
  }

  /** Ctrl+Alt+R on "Song X", liked: one remove of ["abc123"] and the "Removed" note. */
  lemma RemoveExample(tok: Option<string>)
    ensures Handle(tok, {"abc123"}, Some(SongX), KeyEvent("DOWN", "R"), CtrlAlt, None) ==
            Effect({},
                   [Api(tok, GetMyCurrentPlayingTrack), Api(tok, ContainsMySavedTracks(["abc123"])),
                    Api(tok, RemoveFromMySavedTracks(["abc123"]))],
                   Some("Removed from Liked Songs:\nSong X - Artist Y"))
  {
    ExampleInputs();
    HandleRemove(tok, {"abc123"}, SongX, KeyEvent("DOWN", "R"), CtrlAlt);
    assert "Removed from Liked Songs:\n" + "Song X - Artist Y" == "Removed from Liked Songs:\nSong X - Artist Y";
  }

  /** A key event, the held-key table at the moment it arrives, and the step of that run that throws, if any. */
  datatype Press = Press(event: KeyEvent, down: map<string, bool>, fault: Option<Fault>)

  /** No run in the sequence throws. */
  predicate ErrorFree(presses: seq<Press>)
  {
    forall i :: 0 <= i < |presses| ==> presses[i].fault.None?
  }

  /** The liked set after the handler has run for each press in turn. */
  function Run(tok: Option<string>, lib: set<string>, playing: Option<Track>, presses: seq<Press>): set<string>
  {
    if presses == [] then lib
    else
      var last := presses[|presses| - 1];
      Handle(tok, Run(tok, lib, playing, presses[..|presses| - 1]), playing, last.event, last.down, last.fault).liked
  }

  /** The intent of the last press that was a chord, if any. */
  function LastIntent(presses: seq<Press>): Option<Intent>
  {
    if presses == [] then None
    else
      var last := presses[|presses| - 1];
      match ChordIntent(last.event, last.down)
      case Some(intent) => Some(intent)
      case None => LastIntent(presses[..|presses| - 1])
  }

  /**
   * However many presses arrive while one track plays, and whichever of
   * their runs throw, other tracks keep their liked status, and with nothing
   * playing the library never changes. When no run throws, the playing track
   * is liked exactly when the last chord was Ctrl+Alt+A (or, with no chord at
   * all, when it was liked before).
   */
  lemma {:induction false} LastChordDecides(tok: Option<string>, lib: set<string>, playing: Option<Track>, presses: seq<Press>)
    ensures playing.None? ==> Run(tok, lib, playing, presses) == lib
    ensures playing.Some? ==>
              Run(tok, lib, playing, presses) - {playing.value.id} == lib - {playing.value.id}
    ensures playing.Some? && ErrorFree(presses) ==>
              (playing.value.id in Run(tok, lib, playing, presses) <==>
                 match LastIntent(presses)
                 case None => playing.value.id in lib
                 case Some(intent) => intent == Add)
  {
    if presses != [] {
      var prefix := presses[..|presses| - 1];
      LastChordDecides(tok, lib, playing, prefix);
      var last := presses[|presses| - 1];
      if playing.Some? && ErrorFree(presses) {
        assert ErrorFree(prefix) && last.fault.None?;
        match ChordIntent(last.event, last.down)
        case None =>
        case Some(Add) => HandleAdd(tok, Run(tok, lib, playing, prefix), playing.value, last.event, last.down);
        case Some(Remove) => HandleRemove(tok, Run(tok, lib, playing, prefix), playing.value, last.event, last.down);
      }
    }
  }
}
