/**
 * app.py: the Streamlit page that collects the playlist form and builds the
 * track.
 *
 * `st.session_state` is the class `Session`, with one field per key the page
 * uses. The form is the list of its rows, one link field and one start-time
 * field per song; the number of rows is the `num_songs` input. Fetching a
 * title (`fetch_song_title`) is the parameter `fetchTitle`; the random
 * numbers `random.sample` draws are the parameter `draws`.
 */
module App {

  import opened Wrappers
  import opened Audio
  import opened Validations
  import opened AudioProcessor

  type Title = string

  /** A key of the session state: absent, or present with its value. */
  datatype Entry<T> = Absent | Stored(value: T)

  /** One song row of the form: the text of its link field and its start time in seconds. */
  datatype Row = Row(url: string, seconds: nat)

  /** The two choices of the 'Playlist Order' radio button. */
  datatype OrderOption = InOrder | RandomOrder

  /** Where a run of the page stops, and what it has built by then. */
  datatype Outcome =
    | NameMissing
    | NameRejected(message: string)
    | LinksMissing
    | Ready(musicLinks: seq<Url>, startSeconds: map<Url, nat>)
    | Built(musicLinks: seq<Url>, startSeconds: map<Url, nat>, finalSong: Audio, events: seq<Event>)

  /** `if key not in st.session_state: st.session_state[key] = default`: a present value is never replaced. */
  function InitKey<T>(e: Entry<T>, default: T): (r: Entry<T>)
    ensures r.Stored?
    ensures e.Stored? ==> r == e
    ensures e.Absent? ==> r.value == default
  {
    if e.Absent? then Stored(default) else e
  }

  /** Initialising a key twice is initialising it once. */
  lemma InitKeyIdempotent<T>(e: Entry<T>, default: T)
    ensures InitKey(InitKey(e, default), default) == InitKey(e, default)
  {
  }

  /** What `_session_state.get('uploaded_tchica')` hands to `load_sound_clips`: nothing when the key is absent. */
  function UploadedOverride(e: Entry<Option<Audio>>): (upload: Option<Audio>)
    ensures e.Absent? ==> upload.None?
    ensures e.Stored? ==> upload == e.value
  {
    if e.Stored? then e.value else None
  }

  // ---------------------------------------------------------------------
  // What the collection loop builds, row by row
  // ---------------------------------------------------------------------

  /** `music_links`: the urls of the rows whose link field is filled, in row order. */
  function Links(rows: seq<Row>): (links: seq<Url>)
    ensures |links| <= |rows|
    ensures forall k :: 0 <= k < |links| ==> links[k] != ""
    decreases |rows|
  {
    if |rows| == 0 then []
    else
      var r := rows[|rows| - 1];
      Links(rows[..|rows| - 1]) + (if r.url != "" then [r.url] else [])
  }

  /** `start_seconds`: every filled row writes its start time under its url, so a later row wins. */
  function Starts(rows: seq<Row>): map<Url, nat>
    decreases |rows|
  {
    if |rows| == 0 then map[]
    else
      var r := rows[|rows| - 1];
      var m := Starts(rows[..|rows| - 1]);
      if r.url != "" then m[r.url := r.seconds] else m
  }

  /** `st.session_state['song_titles']` after the rows: a filled url missing from the cache gets its fetched title. */
  function Cache(cache: map<Url, Title>, rows: seq<Row>, fetchTitle: Url -> Title): map<Url, Title>
    decreases |rows|
  {
    if |rows| == 0 then cache
    else
      var r := rows[|rows| - 1];
      var c := Cache(cache, rows[..|rows| - 1], fetchTitle);
      if r.url != "" && r.url !in c then c[r.url := fetchTitle(r.url)] else c
  }

  /** The urls `fetch_song_title` is called on, in order: the filled ones the cache does not hold yet. */
  function Fetches(cache: map<Url, Title>, rows: seq<Row>, fetchTitle: Url -> Title): seq<Url>
    decreases |rows|
  {
    if |rows| == 0 then []
    else
      var r := rows[|rows| - 1];
      var p := rows[..|rows| - 1];
      Fetches(cache, p, fetchTitle) + (if r.url != "" && r.url !in Cache(cache, p, fetchTitle) then [r.url] else [])
  }

  /** The titles `st.write` shows, one per filled row, as the cache holds them once that row is done. */
  function Shown(cache: map<Url, Title>, rows: seq<Row>, fetchTitle: Url -> Title): seq<Title>
    decreases |rows|
  {
    if |rows| == 0 then []
    else
      var r := rows[|rows| - 1];
      var p := rows[..|rows| - 1];
      Shown(cache, p, fetchTitle) + (if r.url != "" then [Cache(cache, rows, fetchTitle)[r.url]] else [])
  }

  // ---------------------------------------------------------------------
  // Properties of the collected links and start times
  // ---------------------------------------------------------------------

  /** Filtering the rows commutes with splitting them: the links of `a + b` are those of `a`, then those of `b`. */
  lemma {:induction false} LinksAppend(a: seq<Row>, b: seq<Row>)
    ensures Links(a + b) == Links(a) + Links(b)
    decreases |b|
  {
    if |b| == 0 {
      assert a + b == a;
    } else {
      var b' := b[..|b| - 1];
      assert (a + b)[..|a + b| - 1] == a + b';
      LinksAppend(a, b');
    }
  }

  /** A single row contributes its url exactly when its link field is filled. */
  lemma LinksSingle(r: Row)
    ensures Links([r]) == if r.url != "" then [r.url] else []
  {
    assert [r][..0] == [];
  }

  /** A url is among the links exactly when it is non-empty and some row holds it. */
  lemma {:induction false} LinksMembers(rows: seq<Row>, u: Url)
    ensures u in Links(rows) <==> u != "" && exists i :: 0 <= i < |rows| && rows[i].url == u
    decreases |rows|
  {
    if |rows| > 0 {
      var p := rows[..|rows| - 1];
      LinksMembers(p, u);
      if u != "" && exists i :: 0 <= i < |rows| && rows[i].url == u {
        var i :| 0 <= i < |rows| && rows[i].url == u;
        if i < |rows| - 1 {
          assert p[i] == rows[i];
        }
      }
      if u != "" && exists i :: 0 <= i < |p| && p[i].url == u {
        var i :| 0 <= i < |p| && p[i].url == u;
        assert rows[i] == p[i];
      }
    }
  }

  /**
   * All rows are filled exactly when no row is dropped, and then the links
   * are the rows' urls in order.
   */
  lemma {:induction false} LinksComplete(rows: seq<Row>)
    ensures |Links(rows)| == |rows| <==> forall i :: 0 <= i < |rows| ==> rows[i].url != ""
    ensures |Links(rows)| == |rows| ==> forall i :: 0 <= i < |rows| ==> Links(rows)[i] == rows[i].url
    decreases |rows|
  {
    if |rows| > 0 {
      var p := rows[..|rows| - 1];
      LinksComplete(p);
      var r := rows[|rows| - 1];
      if |Links(rows)| == |rows| {
        assert r.url != "" && |Links(p)| == |p|;
        forall i | 0 <= i < |rows|
          ensures rows[i].url != "" && Links(rows)[i] == rows[i].url
        {
          if i < |p| {
            assert rows[i] == p[i];
          }
        }
      } else if r.url != "" {
        assert |Links(p)| < |p|;
        var i :| 0 <= i < |p| && p[i].url == "";
        assert rows[i] == p[i];
      }
    }
  }

  /** A url has a start time exactly when it is among the links. */
  lemma {:induction false} StartsKeys(rows: seq<Row>, u: Url)
    ensures u in Starts(rows) <==> u in Links(rows)
    decreases |rows|
  {
    if |rows| > 0 {
      StartsKeys(rows[..|rows| - 1], u);
    }
  }

  /** The start time of a url is the one in its last filled row: later duplicates overwrite earlier ones. */
  lemma {:induction false} StartsLastWins(rows: seq<Row>, i: nat)
    requires i < |rows| && rows[i].url != ""
    requires forall j :: i < j < |rows| ==> rows[j].url != rows[i].url
    ensures rows[i].url in Starts(rows) && Starts(rows)[rows[i].url] == rows[i].seconds
    decreases |rows|
  {
    if i < |rows| - 1 {
      var p := rows[..|rows| - 1];
      assert p[i] == rows[i];
      forall j | i < j < |p|
        ensures p[j].url != p[i].url
      {
        assert p[j] == rows[j];
      }
      StartsLastWins(p, i);
    }
  }

  // ---------------------------------------------------------------------
  // Properties of the title cache
  // ---------------------------------------------------------------------

  /** Titles already cached are never replaced. */
  lemma {:induction false} CacheKeeps(cache: map<Url, Title>, rows: seq<Row>, fetchTitle: Url -> Title, u: Url)
    requires u in cache
    ensures u in Cache(cache, rows, fetchTitle) && Cache(cache, rows, fetchTitle)[u] == cache[u]
    decreases |rows|
  {
    if |rows| > 0 {
      CacheKeeps(cache, rows[..|rows| - 1], fetchTitle, u);
    }
  }

  /** Afterwards the cache holds the urls it held before and every collected link, and no other. */
  lemma {:induction false} CacheKeys(cache: map<Url, Title>, rows: seq<Row>, fetchTitle: Url -> Title, u: Url)
    ensures u in Cache(cache, rows, fetchTitle) <==> u in cache || u in Links(rows)
    decreases |rows|
  {
    if |rows| > 0 {
      CacheKeys(cache, rows[..|rows| - 1], fetchTitle, u);
    }
  }

  /** A url the cache did not hold before maps to the title fetched for it. */
  lemma {:induction false} CacheFetched(cache: map<Url, Title>, rows: seq<Row>, fetchTitle: Url -> Title, u: Url)
    requires u in Cache(cache, rows, fetchTitle) && u !in cache
    ensures Cache(cache, rows, fetchTitle)[u] == fetchTitle(u)
    decreases |rows|
  {
    if |rows| > 0 {
      var p := rows[..|rows| - 1];
      if u in Cache(cache, p, fetchTitle) {
        CacheFetched(cache, p, fetchTitle, u);
      }
    }
  }

  /**
   * A title is fetched for exactly the collected links the cache did not
   * hold, and for each of them once.
   */
  lemma {:induction false} FetchedOnce(cache: map<Url, Title>, rows: seq<Row>, fetchTitle: Url -> Title)
    ensures forall u :: u in Fetches(cache, rows, fetchTitle) <==> u in Links(rows) && u !in cache
    ensures forall i, j :: 0 <= i < j < |Fetches(cache, rows, fetchTitle)| ==>
              Fetches(cache, rows, fetchTitle)[i] != Fetches(cache, rows, fetchTitle)[j]
    decreases |rows|
  {
    if |rows| > 0 {
      var p := rows[..|rows| - 1];
      var r := rows[|rows| - 1];
      FetchedOnce(cache, p, fetchTitle);
      if r.url != "" {
        CacheKeys(cache, p, fetchTitle, r.url);
      }
    }
  }

  /** Each shown title is the one the cache holds for that link at the end of the loop. */
  lemma {:induction false} ShownTitles(cache: map<Url, Title>, rows: seq<Row>, fetchTitle: Url -> Title)
    ensures |Shown(cache, rows, fetchTitle)| == |Links(rows)|
    ensures forall k :: 0 <= k < |Links(rows)| ==>
              Links(rows)[k] in Cache(cache, rows, fetchTitle)
              && Shown(cache, rows, fetchTitle)[k] == Cache(cache, rows, fetchTitle)[Links(rows)[k]]
    decreases |rows|
  {
    if |rows| > 0 {
      var p := rows[..|rows| - 1];
      ShownTitles(cache, p, fetchTitle);
      forall k | 0 <= k < |Links(p)|
        ensures Links(rows)[k] in Cache(cache, rows, fetchTitle)
        ensures Shown(cache, rows, fetchTitle)[k] == Cache(cache, rows, fetchTitle)[Links(rows)[k]]
      {
        assert Links(rows)[k] == Links(p)[k];
        assert Shown(cache, rows, fetchTitle)[k] == Shown(cache, p, fetchTitle)[k];
      }
    }
  }

  // ---------------------------------------------------------------------
  // The shuffle
  // ---------------------------------------------------------------------

  /** Taking pool element `j` and moving the last of the first `m` into its place keeps the multiset. */
  lemma PoolStep(pool: seq<Url>, m: nat, j: nat)
    requires j < m <= |pool|
    ensures multiset(pool[j := pool[m - 1]][..m - 1]) + multiset{pool[j]} == multiset(pool[..m])
  {
    assert pool[..m] == pool[..m - 1] + [pool[m - 1]];
    if j < m - 1 {
      assert pool[j := pool[m - 1]][..m - 1] == pool[..m - 1][j := pool[m - 1]];
    } else {
      assert pool[j := pool[m - 1]][..m - 1] == pool[..m - 1];
    }
  }

  /**
   * `random.sample(music_links, len(music_links))`: Python's pool selection,
   * where draw `i` is the `randbelow(n - i)` of step `i`. Every outcome is a
   * reordering of the links.
   */
  method RandomSample(population: seq<Url>, draws: seq<nat>) returns (result: seq<Url>)
    requires |draws| == |population|
    requires forall i :: 0 <= i < |draws| ==> draws[i] < |population| - i
    ensures |result| == |population|
    ensures multiset(result) == multiset(population)
  {
    var n := |population|;
    var pool := population;
    result := [];
    assert pool[..n] == population;
    for i := 0 to n
      invariant |pool| == n && |result| == i
      invariant multiset(result) + multiset(pool[..n - i]) == multiset(population)
    {
      var j := draws[i];
      PoolStep(pool, n - i, j);
      result := result + [pool[j]];
      pool := pool[j := pool[n - i - 1]];
    }
    assert pool[..0] == [];
  }

  // ---------------------------------------------------------------------
  // The session and one run of the page
  // ---------------------------------------------------------------------

  /** `st.session_state`, with the two keys the page keeps between runs. */
  class Session {
    var songTitles: Entry<map<Url, Title>>
    var uploadedTchica: Entry<Option<Audio>>

    /** A new session holds neither key. */
    constructor ()
      ensures songTitles == Absent && uploadedTchica == Absent
    {
      songTitles := Absent;
      uploadedTchica := Absent;
    }

    /** `_initialize_session_state`: creates the empty title cache and the empty upload only where missing. */
    method InitializeSessionState()
      modifies this
      ensures songTitles == InitKey(old(songTitles), map[])
      ensures uploadedTchica == InitKey(old(uploadedTchica), None)
    {
      if songTitles.Absent? {
        songTitles := Stored(map[]);
      }
      if uploadedTchica.Absent? {
        uploadedTchica := Stored(None);
      }
    }

    /** Lines 46-47: a file uploaded in this run replaces the stored clip; otherwise the stored value stays. */
    method StoreUpload(upload: Option<Audio>)
      modifies this
      ensures upload.Some? ==> uploadedTchica == Stored(upload)
      ensures upload.None? ==> uploadedTchica == old(uploadedTchica)
      ensures songTitles == old(songTitles)
    {
      if upload.Some? {
        uploadedTchica := Stored(upload);
      }
    }

    /**
     * Lines 114-142: walks the rows, fetching the title of every filled url
     * the cache does not hold and showing the cached title otherwise, and
     * collects the links and their start times.
     */
    method CollectSongs(rows: seq<Row>, fetchTitle: Url -> Title)
      returns (musicLinks: seq<Url>, startSeconds: map<Url, nat>, shown: seq<Title>, fetched: seq<Url>)
      requires songTitles.Stored?
      modifies this
      ensures musicLinks == Links(rows) && startSeconds == Starts(rows)
      ensures songTitles == Stored(Cache(old(songTitles.value), rows, fetchTitle))
      ensures shown == Shown(old(songTitles.value), rows, fetchTitle)
      ensures fetched == Fetches(old(songTitles.value), rows, fetchTitle)
      ensures uploadedTchica == old(uploadedTchica)
    {
      ghost var cache := songTitles.value;
      musicLinks := [];
      startSeconds := map[];
      shown := [];
      fetched := [];
      for i := 0 to |rows|
        invariant musicLinks == Links(rows[..i]) && startSeconds == Starts(rows[..i])
        invariant songTitles == Stored(Cache(cache, rows[..i], fetchTitle))
        invariant shown == Shown(cache, rows[..i], fetchTitle)
        invariant fetched == Fetches(cache, rows[..i], fetchTitle)
        invariant uploadedTchica == old(uploadedTchica)
      {
        assert rows[..i + 1][..i] == rows[..i];
        var url := rows[i].url;
        var seconds := rows[i].seconds;
        if url != "" {
          var title;
          if url !in songTitles.value {
            title := fetchTitle(url);
            fetched := fetched + [url];
            songTitles := Stored(songTitles.value[url := title]);
          } else {
            title := songTitles.value[url];
          }
          shown := shown + [title];
        }
        if url != "" {
          musicLinks := musicLinks + [url];
          startSeconds := startSeconds[url := seconds];
        }
      }
      assert rows[..|rows|] == rows;
    }

    /**
     * `main` after the page is drawn: initialises the session, stores an
     * upload, loads the clips, checks the name, collects the rows, stops
     * unless every row is filled, shuffles for 'Random Order', and builds
     * the track when the button is pressed.
     */
    method Run(orderOption: OrderOption, upload: Option<Audio>, files: ClipFiles, playlistName: string,
               rows: seq<Row>, draws: seq<nat>, pressed: bool, songDuration: Option<nat>,
               download: Url -> Audio, fetchTitle: Url -> Title)
      returns (outcome: Outcome, fetched: seq<Url>)
      requires |draws| == |rows| && forall i :: 0 <= i < |draws| ==> draws[i] < |rows| - i
      modifies this
      ensures upload.Some? ==> uploadedTchica == Stored(upload)
      ensures upload.None? ==> uploadedTchica == InitKey(old(uploadedTchica), None)
      ensures outcome.NameMissing? <==> playlistName == ""
      ensures outcome.NameRejected? <==> playlistName != "" && !ValidatePlaylistName(playlistName).0
      ensures playlistName != "" && !ValidatePlaylistName(playlistName).0 ==>
                outcome == NameRejected(InvalidNameMessage)
      ensures !ValidatePlaylistName(playlistName).0 || playlistName == "" ==>
                fetched == [] && songTitles == InitKey(old(songTitles), map[])
      ensures ValidatePlaylistName(playlistName).0 && playlistName != "" ==>
                var cache := InitKey(old(songTitles), map[]).value;
                && songTitles == Stored(Cache(cache, rows, fetchTitle))
                && fetched == Fetches(cache, rows, fetchTitle)
                && (outcome.LinksMissing? <==> |Links(rows)| < |rows|)
      ensures outcome.Ready? || outcome.Built? ==>
                && |Links(rows)| == |rows|
                && outcome.startSeconds == Starts(rows)
                && (orderOption == InOrder ==> outcome.musicLinks == Links(rows))
                && |outcome.musicLinks| == |rows|
                && multiset(outcome.musicLinks) == multiset(Links(rows))
      ensures playlistName != "" && ValidatePlaylistName(playlistName).0 && |Links(rows)| == |rows| ==>
                if pressed then outcome.Built? else outcome.Ready?
      ensures outcome.Built? <==> (outcome.Ready? || outcome.Built?) && pressed
      ensures outcome.Built? ==>
                outcome.finalSong == Track(LoadSoundClips(files, UploadedOverride(uploadedTchica)),
                                           Segments(download, outcome.startSeconds, DurationMs(songDuration),
                                                    outcome.musicLinks))
                && outcome.events == Log(outcome.musicLinks, |outcome.musicLinks|)
    {
      InitializeSessionState();
      StoreUpload(upload);
      var soundClips := LoadSoundClips(files, UploadedOverride(uploadedTchica));
      fetched := [];
      if playlistName != "" {
        var (isValid, warningMsg) := ValidatePlaylistName(playlistName);
        if !isValid {
          outcome := NameRejected(warningMsg);
          return;
        }
      } else {
        outcome := NameMissing;
        return;
      }
      var musicLinks, startSeconds, shown;
      musicLinks, startSeconds, shown, fetched := CollectSongs(rows, fetchTitle);
      if |musicLinks| < |rows| {
        outcome := LinksMissing;
        return;
      }
      if orderOption == RandomOrder {
        musicLinks := RandomSample(musicLinks, draws);
      }
      if pressed {
        var finalSong, events := CreatePlaylist(musicLinks, startSeconds, soundClips, songDuration, download);
        outcome := Built(musicLinks, startSeconds, finalSong, events);
      } else {
        outcome := Ready(musicLinks, startSeconds);
      }
    }
  }

}
