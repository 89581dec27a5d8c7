/**
 * utils/audio_processor.py: loading the three stingers and assembling the
 * playlist track from the songs.
 *
 * Downloading a song (`download_and_convert_audio` followed by
 * `AudioSegment.from_file`) is the parameter `download`. The calls the loop
 * makes on the outside world, the download, the `os.remove` of the converted
 * file and the progress bar, are returned as a log of events.
 */
module AudioProcessor {

  import opened Wrappers
  import opened Audio

  type Url = string

  /** Milliseconds cut from the end of the default `tchica_tchica.m4a`. */
  const TchicaTailMs: nat := 300

  /** Milliseconds cut from the end of `horn.m4a`. */
  const HornTailMs: nat := 1300

  /** Seconds per song when the configuration has no `DEFAULT_SONG_DURATION`. */
  const DefaultSongDurationSec: nat := 60

  /** The decoded contents of the three clip files under `SOUND_CLIPS_PATH`. */
  datatype ClipFiles = ClipFiles(signatureTag: Audio, tchicaTchica: Audio, horn: Audio)

  /** The dictionary returned by `load_sound_clips`. */
  datatype SoundClips = SoundClips(personalTag: Audio, tchica: Audio, horn: Audio)

  /**
   * `load_sound_clips`: the intro tag as it is on disk; the uploaded clip,
   * untrimmed, when there is one, otherwise the default clip without its
   * last 300 ms; the horn without its last 1300 ms.
   */
  function LoadSoundClips(files: ClipFiles, uploadedTchica: Option<Audio>): (clips: SoundClips)
    ensures clips.personalTag == files.signatureTag
    ensures uploadedTchica.Some? ==> clips.tchica == uploadedTchica.value
    ensures uploadedTchica.None? ==>
              clips.tchica <= files.tchicaTchica
              && |clips.tchica| == if |files.tchicaTchica| >= 300 then |files.tchicaTchica| - 300 else 0
    ensures clips.horn <= files.horn
    ensures |clips.horn| == if |files.horn| >= 1300 then |files.horn| - 1300 else 0
  {
    var tchica := if uploadedTchica.Some? then uploadedTchica.value
                  else DropTail(files.tchicaTchica, TchicaTailMs);
    SoundClips(files.signatureTag, tchica, DropTail(files.horn, HornTailMs))
  }

  /** `config_manager.get('DEFAULT_SONG_DURATION', 60) * 1000`. */
  function DurationMs(songDuration: Option<nat>): (ms: nat)
    ensures songDuration.None? ==> ms == 60000
    ensures songDuration.Some? ==> ms == 1000 * songDuration.value
  {
    (if songDuration.Some? then songDuration.value else DefaultSongDurationSec) * 1000
  }

  /** `start_seconds.get(url, 0) * 1000`. */
  function StartMs(startSeconds: map<Url, nat>, url: Url): (ms: nat)
    ensures url !in startSeconds ==> ms == 0
    ensures url in startSeconds ==> ms == 1000 * startSeconds[url]
  {
    (if url in startSeconds then startSeconds[url] else 0) * 1000
  }

  /**
   * The part of the song at `url` that goes into the track: the window of
   * `durationMs` starting at the url's start time (lines 74-78).
   */
  function SongSegment(download: Url -> Audio, startSeconds: map<Url, nat>, durationMs: nat, url: Url): Audio
  {
    var start := StartMs(startSeconds, url);
    Slice(download(url), start, start + durationMs)
  }

  /**
   * A segment is never longer than the configured duration, has exactly that
   * length when the song is long enough, is empty when the song ends at or
   * before the start time, and otherwise holds the song's samples from the
   * start time on; a url without a start time starts at the beginning.
   */
  lemma SegmentWindow(download: Url -> Audio, startSeconds: map<Url, nat>, durationMs: nat, url: Url)
    ensures var seg, song, start := SongSegment(download, startSeconds, durationMs, url), download(url), StartMs(startSeconds, url);
            && |seg| <= durationMs
            && (start + durationMs <= |song| ==> |seg| == durationMs)
            && (start >= |song| ==> seg == [])
            && (forall k :: 0 <= k < |seg| ==> start + k < |song| && seg[k] == song[start + k])
            && (url !in startSeconds ==> seg == song[..Min(durationMs, |song|)])
  {
    var start := StartMs(startSeconds, url);
    SliceWindow(download(url), start, start + durationMs);
  }

  /** The segment of every link, in the order of the links. */
  function Segments(download: Url -> Audio, startSeconds: map<Url, nat>, durationMs: nat, links: seq<Url>): (segs: seq<Audio>)
    ensures |segs| == |links|
  {
    seq(|links|, i requires 0 <= i < |links| => SongSegment(download, startSeconds, durationMs, links[i]))
  }

  /** What is played before song `i`: the intro tag before the first, the tchica and then the horn before every later one. */
  function Stinger(clips: SoundClips, i: nat): Audio
  {
    if i == 0 then clips.personalTag else clips.tchica + clips.horn
  }

  /** What the loop appends for song `i`: its stinger, then its segment. */
  function Piece(clips: SoundClips, i: nat, seg: Audio): Audio
  {
    Stinger(clips, i) + seg
  }

  /** The pieces of all songs, in order. */
  function Pieces(clips: SoundClips, segs: seq<Audio>): (pieces: seq<Audio>)
    ensures |pieces| == |segs|
  {
    seq(|segs|, i requires 0 <= i < |segs| => Piece(clips, i, segs[i]))
  }

  /** One loop step: appending song `i`'s stinger and segment to the first `i` pieces gives the first `i + 1`. */
  lemma TrackStep(clips: SoundClips, segs: seq<Audio>, i: nat, acc: Audio)
    requires i < |segs| && acc == Concat(Pieces(clips, segs), i)
    ensures i == 0 ==> acc + (clips.personalTag + segs[i]) == Concat(Pieces(clips, segs), i + 1)
    ensures i > 0 ==> acc + (clips.tchica + clips.horn + segs[i]) == Concat(Pieces(clips, segs), i + 1)
  {
    assert Pieces(clips, segs)[i] == Stinger(clips, i) + segs[i];
  }

  /** The whole track: all pieces joined in order. */
  function Track(clips: SoundClips, segs: seq<Audio>): Audio
  {
    Concat(Pieces(clips, segs), |segs|)
  }

  /** Where the stinger before song `i` starts in the track. */
  function PieceStart(clips: SoundClips, segs: seq<Audio>, i: nat): nat
    requires i <= |segs|
  {
    |Concat(Pieces(clips, segs), i)|
  }

  /** Where song `i`'s segment starts in the track. */
  function SegmentStart(clips: SoundClips, segs: seq<Audio>, i: nat): nat
    requires i < |segs|
  {
    PieceStart(clips, segs, i) + |Stinger(clips, i)|
  }

  /**
   * The length of the track: nothing for no songs; otherwise the intro tag
   * once, a tchica and a horn for every song after the first, and all
   * segments.
   */
  lemma {:induction false} TrackLength(clips: SoundClips, segs: seq<Audio>, k: nat)
    requires k <= |segs|
    ensures k == 0 ==> Concat(Pieces(clips, segs), k) == []
    ensures k > 0 ==>
              |Concat(Pieces(clips, segs), k)|
              == |clips.personalTag| + (k - 1) * (|clips.tchica| + |clips.horn|) + SumLengths(segs, k)
    decreases k
  {
    if k > 0 {
      var pieces := Pieces(clips, segs);
      assert |pieces[k - 1]| == |Stinger(clips, k - 1)| + |segs[k - 1]|;
      if k > 1 {
        TrackLength(clips, segs, k - 1);
        assert (k - 1) * (|clips.tchica| + |clips.horn|)
               == (k - 2) * (|clips.tchica| + |clips.horn|) + (|clips.tchica| + |clips.horn|);
      }
    }
  }

  /** Song `i`'s segment sits in the track right after its stinger, and ends where the next piece starts. */
  lemma SegmentAt(clips: SoundClips, segs: seq<Audio>, i: nat)
    requires i < |segs|
    ensures SegmentStart(clips, segs, i) + |segs[i]| == PieceStart(clips, segs, i + 1) <= |Track(clips, segs)|
    ensures Track(clips, segs)[SegmentStart(clips, segs, i)..PieceStart(clips, segs, i + 1)] == segs[i]
  {
    var pieces := Pieces(clips, segs);
    var n := |Stinger(clips, i)|;
    assert pieces[i] == Stinger(clips, i) + segs[i];
    ConcatPartSlice(pieces, i, n, |pieces[i]|);
    assert pieces[i][n..|pieces[i]|] == segs[i];
  }

  /** A non-empty track starts with the intro tag, right before the first segment. */
  lemma IntroFirst(clips: SoundClips, segs: seq<Audio>)
    requires 0 < |segs|
    ensures SegmentStart(clips, segs, 0) == |clips.personalTag| <= |Track(clips, segs)|
    ensures Track(clips, segs)[..|clips.personalTag|] == clips.personalTag
  {
    var pieces := Pieces(clips, segs);
    var n := |clips.personalTag|;
    assert pieces[0] == clips.personalTag + segs[0];
    ConcatPartSlice(pieces, 0, 0, n);
    assert pieces[0][0..n] == clips.personalTag;
    assert Track(clips, segs)[..n] == Track(clips, segs)[0..n];
  }

  /** Before every later song comes the tchica and then the horn, ending where its segment starts. */
  lemma TchicaThenHorn(clips: SoundClips, segs: seq<Audio>, i: nat)
    requires 0 < i < |segs|
    ensures var p, m := PieceStart(clips, segs, i), |clips.tchica|;
            && p + m + |clips.horn| == SegmentStart(clips, segs, i) <= |Track(clips, segs)|
            && Track(clips, segs)[p..p + m] == clips.tchica
            && Track(clips, segs)[p + m..p + m + |clips.horn|] == clips.horn
  {
    var pieces := Pieces(clips, segs);
    assert pieces[i] == clips.tchica + clips.horn + segs[i];
    ConcatPartSplit(pieces, i, clips.tchica, clips.horn, segs[i]);
  }

  /** Pieces of later songs start further into the track. */
  lemma {:induction false} PieceStartMonotonic(clips: SoundClips, segs: seq<Audio>, i: nat, j: nat)
    requires i <= j <= |segs|
    ensures PieceStart(clips, segs, i) <= PieceStart(clips, segs, j)
  {
    ConcatLengthMonotonic(Pieces(clips, segs), i, j);
  }

  /** Segments appear in the track in the order of their links, without overlapping. */
  lemma SegmentsInOrder(clips: SoundClips, segs: seq<Audio>, i: nat, j: nat)
    requires i < j < |segs|
    ensures SegmentStart(clips, segs, i) + |segs[i]| <= SegmentStart(clips, segs, j)
  {
    var pieces := Pieces(clips, segs);
    assert |Concat(pieces, i + 1)| == |Concat(pieces, i)| + |pieces[i]|;
    assert |pieces[i]| == |Stinger(clips, i)| + |segs[i]|;
    PieceStartMonotonic(clips, segs, i + 1, j);
  }

  /**
   * What the loop in `create_playlist` does to the outside world, in order:
   * the download of song `song`, the removal of its converted file, and the
   * progress bar set to `done / total` (`done == 0` is the bar created empty).
   */
  datatype Event = Download(song: nat, url: Url) | Remove(song: nat) | Progress(done: nat, total: nat)

  /** The events after the first `k` iterations: the empty bar, then download, removal and progress for each song. */
  function Log(links: seq<Url>, k: nat): seq<Event>
    requires k <= |links|
    decreases k
  {
    if k == 0 then [Progress(0, |links|)]
    else Log(links, k - 1) + [Download(k - 1, links[k - 1]), Remove(k - 1), Progress(k, |links|)]
  }

  /** One loop step: the download, removal and progress events of song `k` extend the log of the first `k` songs to `k + 1`. */
  lemma LogStep(links: seq<Url>, k: nat)
    requires k < |links|
    ensures Log(links, k) + [Download(k, links[k])] + [Remove(k)] + [Progress(k + 1, |links|)] == Log(links, k + 1)
  {
    assert [Download(k, links[k])] + [Remove(k)] + [Progress(k + 1, |links|)]
        == [Download(k, links[k]), Remove(k), Progress(k + 1, |links|)];
  }

  /**
   * The event at position `p` of the log: the progress count `p / 3` every
   * third event from the empty bar on; in between, the download of song
   * `p / 3` from its own link and then the removal of its file.
   */
  function EventAt(links: seq<Url>, p: nat): Event
    requires p <= 3 * |links|
  {
    if p % 3 == 0 then Progress(p / 3, |links|)
    else if p % 3 == 1 then Download(p / 3, links[p / 3])
    else Remove(p / 3)
  }

  /** The log after `k` iterations holds the first `3 * k + 1` events of that shape. */
  lemma {:induction false} LogShape(links: seq<Url>, k: nat)
    requires k <= |links|
    ensures |Log(links, k)| == 3 * k + 1
    ensures forall p :: 0 <= p < |Log(links, k)| ==> Log(links, k)[p] == EventAt(links, p)
    decreases k
  {
    if k > 0 {
      LogShape(links, k - 1);
      var prev, log := Log(links, k - 1), Log(links, k);
      assert log == prev + [Download(k - 1, links[k - 1]), Remove(k - 1), Progress(k, |links|)];
      forall p | 0 <= p < |log|
        ensures log[p] == EventAt(links, p)
      {
        if p < |prev| {
          assert log[p] == prev[p];
        }
      }
    }
  }

  /**
   * Song `i` is downloaded from its own link, its converted file is removed
   * next, and then the bar shows `i + 1` of all songs done.
   */
  lemma SongEvents(links: seq<Url>, i: nat)
    requires i < |links|
    ensures 3 * i + 3 < |Log(links, |links|)|
    ensures Log(links, |links|)[3 * i + 1] == Download(i, links[i])
    ensures Log(links, |links|)[3 * i + 2] == Remove(i)
    ensures Log(links, |links|)[3 * i + 3] == Progress(i + 1, |links|)
  {
    LogShape(links, |links|);
    assert EventAt(links, 3 * i + 1) == Download(i, links[i]);
    assert EventAt(links, 3 * i + 2) == Remove(i);
    assert EventAt(links, 3 * i + 3) == Progress(i + 1, |links|);
  }

  /** The progress bar only moves forward, and every update is out of the number of songs. */
  lemma ProgressIncreasing(links: seq<Url>, p: nat, q: nat)
    requires p < q < |Log(links, |links|)|
    requires Log(links, |links|)[p].Progress? && Log(links, |links|)[q].Progress?
    ensures Log(links, |links|)[p].done < Log(links, |links|)[q].done
    ensures Log(links, |links|)[q].total == |links|
  {
    LogShape(links, |links|);
  }

  /** After the last song the bar is full; with no songs it is only ever the empty bar. */
  lemma ProgressComplete(links: seq<Url>)
    ensures links != [] ==> Log(links, |links|)[|Log(links, |links|)| - 1] == Progress(|links|, |links|)
    ensures links == [] ==> Log(links, 0) == [Progress(0, 0)]
  {
    if links != [] {
      SongEvents(links, |links| - 1);
    }
  }

  /**
   * The converted file of every download is removed immediately after, so
   * before the next download starts and before `create_playlist` returns.
   */
  lemma RemovedBeforeNextDownload(links: seq<Url>, p: nat)
    requires p < |Log(links, |links|)| && Log(links, |links|)[p].Download?
    ensures p + 1 < |Log(links, |links|)| && Log(links, |links|)[p + 1] == Remove(Log(links, |links|)[p].song)
    ensures forall q :: p < q < |Log(links, |links|)| && Log(links, |links|)[q].Download? ==> p + 1 < q
  {
    LogShape(links, |links|);
    SongEvents(links, p / 3);
  }

  /**
   * `create_playlist`: downloads every link in turn, cuts its segment,
   * appends it after the intro tag (first song) or after the tchica and the
   * horn (later songs), removes the converted file and advances the
   * progress bar.
   */
  method CreatePlaylist(musicLinks: seq<Url>, startSeconds: map<Url, nat>, soundClips: SoundClips,
                        songDuration: Option<nat>, download: Url -> Audio)
    returns (finalSong: Audio, events: seq<Event>)
    ensures finalSong == Track(soundClips, Segments(download, startSeconds, DurationMs(songDuration), musicLinks))
    ensures events == Log(musicLinks, |musicLinks|)
  {
    ghost var segs := Segments(download, startSeconds, DurationMs(songDuration), musicLinks);
    ghost var pieces := Pieces(soundClips, segs);
    finalSong := [];
    var horn := soundClips.horn;
    var tchica := soundClips.tchica;
    var personalTag := soundClips.personalTag;
    var totalSongs := |musicLinks|;
    events := [Progress(0, totalSongs)];
    for i := 0 to |musicLinks|
      invariant finalSong == Concat(pieces, i)
      invariant events == Log(musicLinks, i)
    {
      LogStep(musicLinks, i);
      var url := musicLinks[i];
      var sound := download(url);
      events := events + [Download(i, url)];
      var startTime := StartMs(startSeconds, url);
      var duration := DurationMs(songDuration);
      sound := Slice(sound, startTime, startTime + duration);
      assert sound == segs[i];
      TrackStep(soundClips, segs, i, finalSong);
      if i == 0 {
        finalSong := finalSong + (personalTag + sound);
      } else {
        finalSong := finalSong + (tchica + horn + sound);
      }
      events := events + [Remove(i)];
      events := events + [Progress(i + 1, totalSongs)];
    }
  }

}
