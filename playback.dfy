/**
 * The currently playing track as the hotkey handler sees it, and the
 * display string it shows in every notification about that track:
 * the track name, " - ", then the artists' names joined with ", ".
 */
module Playback {

  datatype Artist = Artist(name: string)

  datatype Track = Track(id: string, name: string, artists: seq<Artist>)

  /** The artists' names, in the order the service lists the artists. */
  function ArtistNames(artists: seq<Artist>): seq<string>
  {
    seq(|artists|, i requires 0 <= i < |artists| => artists[i].name)
  }

  /** Array.prototype.join: the parts in order, with `sep` between neighbours. */
  function Join(parts: seq<string>, sep: string): string
  {
    if |parts| == 0 then ""
    else if |parts| == 1 then parts[0]
    else parts[0] + sep + Join(parts[1..], sep)
  }

  /** Where the part with index `i` starts in `Join(parts, sep)`. */
  function Offset(parts: seq<string>, sep: string, i: nat): nat
    requires i <= |parts|
  {
    if i == 0 then 0 else |parts[0]| + |sep| + Offset(parts[1..], sep, i - 1)
  }

  /**
   * The joined string, read off part by part: part `i` sits at its offset,
   * a separator follows every part but the last, and the last part ends
   * the string. Together these fix every character of the result.
   */
  lemma {:induction false} JoinAt(parts: seq<string>, sep: string, i: nat)
    requires i < |parts|
    ensures Offset(parts, sep, i) + |parts[i]| <= |Join(parts, sep)|
    ensures Join(parts, sep)[Offset(parts, sep, i)..Offset(parts, sep, i) + |parts[i]|] == parts[i]
    ensures i + 1 < |parts| ==>
              Offset(parts, sep, i + 1) == Offset(parts, sep, i) + |parts[i]| + |sep| &&
              Offset(parts, sep, i + 1) <= |Join(parts, sep)| &&
              Join(parts, sep)[Offset(parts, sep, i) + |parts[i]|..Offset(parts, sep, i + 1)] == sep
    ensures i + 1 == |parts| ==> Offset(parts, sep, i) + |parts[i]| == |Join(parts, sep)|
  {
    if i == 0 {
      JoinFirst(parts, sep);
    } else {
      var head, rest := parts[0] + sep, parts[1..];
      JoinAt(rest, sep, i - 1);
      assert Join(parts, sep) == head + Join(rest, sep);
      var at := Offset(rest, sep, i - 1);
      assert Offset(parts, sep, i) == |head| + at;
      assert rest[i - 1] == parts[i];
      SliceShift(head, Join(rest, sep), at, at + |parts[i]|);
      if i + 1 < |parts| {
        assert Offset(parts, sep, i + 1) == |head| + Offset(rest, sep, i);
        SliceShift(head, Join(rest, sep), at + |parts[i]|, Offset(rest, sep, i));
      }
    }
  }

  /** The case of `JoinAt` for the first part. */
  lemma JoinFirst(parts: seq<string>, sep: string)
    requires 0 < |parts|
    ensures |parts[0]| <= |Join(parts, sep)|
    ensures Join(parts, sep)[..|parts[0]|] == parts[0]
    ensures 1 < |parts| ==>
              Offset(parts, sep, 1) == |parts[0]| + |sep| <= |Join(parts, sep)| &&
              Join(parts, sep)[|parts[0]|..Offset(parts, sep, 1)] == sep
    ensures 1 == |parts| ==> |parts[0]| == |Join(parts, sep)|
  {
    if 1 < |parts| {
      var head := parts[0] + sep;
      assert Join(parts, sep) == head + Join(parts[1..], sep);
      assert Offset(parts[1..], sep, 0) == 0;
    }
  }

  /** Slicing after a prefix is slicing the remainder. */
  lemma SliceShift(head: string, tail: string, a: nat, b: nat)
    requires a <= b <= |tail|
    ensures (head + tail)[|head| + a..|head| + b] == tail[a..b]
  {
  }

  /** The display string of a track, as shown in the notifications. */
  function SongInfo(t: Track): (info: string)
    ensures |t.name| + 3 <= |info|
    ensures info[..|t.name|] == t.name && info[|t.name|..|t.name| + 3] == " - "
    ensures |t.artists| == 0 ==> info == t.name + " - "
  {
    t.name + " - " + Join(ArtistNames(t.artists), ", ")
  }

  /**
   * Artist `i` of the track appears in the display string after the name and
   * " - ", at its place in the artist list; ", " follows every artist but the
   * last, and the last artist ends the string.
   */
  lemma SongInfoArtistAt(t: Track, i: nat)
    requires i < |t.artists|
    ensures var p := |t.name| + 3 + Offset(ArtistNames(t.artists), ", ", i);
            var n := t.artists[i].name;
            var info := SongInfo(t);
            && p + |n| <= |info|
            && info[p..p + |n|] == n
            && (i + 1 < |t.artists| ==> p + |n| + 2 <= |info| && info[p + |n|..p + |n| + 2] == ", ")
            && (i + 1 == |t.artists| ==> p + |n| == |info|)
  {
    var names := ArtistNames(t.artists);
    JoinAt(names, ", ", i);
    var head := t.name + " - ";
    assert SongInfo(t) == head + Join(names, ", ");
  }
}
