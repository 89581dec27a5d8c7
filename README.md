# Power Hour playlist maker — a Dafny model

The Power Hour playlist maker is a Streamlit page. It lets a user name a playlist and enter a number of YouTube links, each with an optional start time, and it builds one audio track from them. The track has an intro tag before the first song and a "tchica" clip followed by a horn before every later song. Each song is cut to a fixed-length window that begins at the song's start time.

This project models the part of that program that decides what ends up in the track:

- **`Audio`** (`audio.dfy`): a sound is a sequence of samples, one per millisecond. It provides pydub's clamped slice `sound[a:b]`, the tail trim `sound[:-k]`, and the joining of sounds, with lemmas on where each part lies in the joined sound.
- **`AudioProcessor`** (`audio_processor.dfy`): `load_sound_clips` and `create_playlist` from `utils/audio_processor.py`.
  - `create_playlist` is a method with the loop of the source. Its specification is the function `Track`: the pieces "intro tag + first segment", then "tchica + horn + segment" for each later song, joined in order.
  - The method also returns the log of what it does to the outside world: one download, one file removal and one progress-bar update per song, after an initial empty bar.
  - The lemmas state the exact length of the track, where every segment, intro tag, tchica and horn lies, that segments keep the order of the links, and the shape of the event log.
- **`Validations`** (`validations.dfy`): `validate_playlist_name`. A name is valid exactly when it has none of `< > : " / \ | ? *`. A rejected name always gets the same non-empty message.
- **`App`** (`app.dfy`): the page logic of `app.py`.
  - `st.session_state` is a class with one field per key: the title cache `song_titles` and the upload `uploaded_tchica`. The methods `InitializeSessionState` and `StoreUpload` change those fields in place.
  - The link collection loop is a method. It is specified row by row by the functions `Links`, `Starts`, `Cache`, `Fetches` and `Shown`, and lemmas relate these functions to what the page promises.
  - `random.sample` is Python's pool-selection loop, with the random draws passed in, and is proved to return a reordering.
  - `Run` strings the steps of `main` together and states, for every input, where the page stops and what it has built by then.

Outside calls are parameters:

- `download: Url -> Audio` stands for `download_and_convert_audio` followed by `AudioSegment.from_file`.
- `fetchTitle: Url -> Title` stands for `fetch_song_title`.
- `draws` holds the numbers `randbelow` would return.
- The decoded clip files are the datatype `ClipFiles`.
- `DEFAULT_SONG_DURATION` is `songDuration: Option<nat>`, where `None` is an absent key.

What the code does, and so what the model does:

- Downloads run one after another, in link order.
- There are no error categories. An exception from a download or a decode ends the run, and the model does not represent it.
- An uploaded clip is decoded as it is; there is no fallback to the default clip when it is unreadable.
- The converted mp3 of each song has a fresh name, `tmp_<uuid4>.mp3` (utils/youtube_handler.py:21-22). The raw download `tmp_raw_audio.<ext>` (utils/youtube_handler.py:10) and the uploaded clip's copy `temp_tchica.m4a` (utils/audio_processor.py:25) have fixed names.
- The page checks the playlist name before it collects any link, so the name check is part of the model.

## Model

| member | source | states |
|---|---|---|
| Audio.SliceWindow | utils/audio_processor.py:78 | pydub's `sound[a:b]` is clamped to the sound. Its length is `min(b, |s|) - a` when `a < b` and `a < |s|`, and 0 otherwise. It is at most `b - a`, exactly `b - a` when the sound is long enough, and empty when `a` is at or past the end. Sample `k` of the slice is sample `a + k` of the sound. |
| Audio.DropTail | utils/audio_processor.py:31-34 | `sound[:-k]` is a prefix of the sound that is `k` samples shorter. A sound shorter than `k` gives the empty sound, as this model reads `[:-k]`. |
| AudioProcessor.LoadSoundClips | utils/audio_processor.py:19-40 | The intro tag is `signature_tag.m4a` unchanged. An uploaded clip is the tchica unchanged. Otherwise the tchica is `tchica_tchica.m4a` without its last 300 ms. The horn is `horn.m4a` without its last 1300 ms. |
| AudioProcessor.DurationMs | utils/audio_processor.py:77 | The song duration in ms is 1000 times the configured seconds, or 60000 when the key is missing. |
| AudioProcessor.StartMs | utils/audio_processor.py:74 | A url's start in ms is 1000 times its entry in `start_seconds`, or 0 when the url has no entry. |
| AudioProcessor.SegmentWindow | utils/audio_processor.py:74-78 | A song's segment is never longer than the duration and is exactly that long when the song lasts long enough. It is empty when the start is at or past the song's end. It holds the song's samples from the start onward, and it is a prefix of the song when the url has no start time. |
| AudioProcessor.Segments | utils/audio_processor.py:66-78 | There is one segment per link. |
| AudioProcessor.Pieces | utils/audio_processor.py:80-84 | There is one piece, stinger plus segment, per segment. |
| AudioProcessor.TrackStep | utils/audio_processor.py:80-84 | Appending `personal_tag + sound` for the first song, and `tchica + horn + sound` for any later song, to the first `i` pieces gives the first `i + 1`. |
| AudioProcessor.TrackLength | utils/audio_processor.py:55-84 | No links give the empty track. For `n >= 1` songs the length is `|personal_tag| + (n - 1)(|tchica| + |horn|)` plus the sum of the segment lengths. |
| AudioProcessor.SegmentAt | utils/audio_processor.py:78-84 | Each song's segment lies in the track directly after its stinger and ends where the next song's piece begins. |
| AudioProcessor.IntroFirst | utils/audio_processor.py:81-82 | A non-empty track starts with `personal_tag`, and the first segment comes right after it. |
| AudioProcessor.TchicaThenHorn | utils/audio_processor.py:83-84 | Every later song is preceded by the tchica and then the horn, in that order, ending exactly where its segment starts. |
| AudioProcessor.PieceStartMonotonic | utils/audio_processor.py:66-84 | A later song's piece never starts earlier in the track. |
| AudioProcessor.SegmentsInOrder | utils/audio_processor.py:66-84 | The segment of song `i` ends before the segment of any later song `j` starts, so segments appear in link order. |
| AudioProcessor.LogStep | utils/audio_processor.py:68-90 | One iteration adds, in this order, the download of song `i`, the removal of its file, and the progress `(i + 1, total)`. |
| AudioProcessor.LogShape | utils/audio_processor.py:63-90 | After `k` songs the log has `3k + 1` events: the empty bar, then download, removal and progress for each song in link order. |
| AudioProcessor.SongEvents | utils/audio_processor.py:68-90 | For each song, the download, removal and progress `(i + 1, total)` events sit at consecutive positions of the log. |
| AudioProcessor.ProgressIncreasing | utils/audio_processor.py:90 | Progress values strictly increase along the log and always count against the number of links. |
| AudioProcessor.ProgressComplete | utils/audio_processor.py:62-90 | For a non-empty list, the last event is progress `(n, n)`, a full bar. For an empty list, the log is only the empty bar. |
| AudioProcessor.RemovedBeforeNextDownload | utils/audio_processor.py:68-87 | A download is immediately followed by the removal of that song's file, and every later download comes after that removal. |
| AudioProcessor.CreatePlaylist | utils/audio_processor.py:42-92 | The returned track is `Track` of the clips and the segments of the links. The returned log is `Log` of the links. |
| Validations.SearchInvalid | utils/validations.py:5-8 | The search finds a match exactly when some character of the name is one of the nine invalid characters. |
| Validations.ValidatePlaylistName | utils/validations.py:3-15 | A name is valid exactly when none of its characters is invalid. A valid name returns `(True, "")`. An invalid name returns `(False, msg)` with the fixed, non-empty message. |
| Validations.EmptyNameValid | utils/validations.py:6-15 | The empty name is valid, with the empty message. |
| Validations.SingleCharacter | utils/validations.py:5-8 | A one-character name is rejected exactly when its character is one of the nine. |
| Validations.InvalidConcat | utils/validations.py:8 | An invalid name stays invalid when anything is appended or prepended. |
| Validations.SameMessage | utils/validations.py:10-13 | Every rejected name gets the same message. |
| App.InitKey | app.py:16-20 | Initialising a session key leaves a present value as it was and stores the default only in an absent key. |
| App.InitKeyIdempotent | app.py:14-20 | Initialising twice equals initialising once. |
| App.UploadedOverride | utils/audio_processor.py:23-24 | `load_sound_clips` sees the stored upload, or nothing when the key is absent. |
| App.Links | app.py:115-141 | `music_links` is never longer than the number of rows, and every element is a non-empty url. |
| App.LinksAppend | app.py:118-141 | The links of rows `a + b` are the links of `a` followed by the links of `b`, so rows keep their order. |
| App.LinksSingle | app.py:140-141 | A row contributes its url exactly when its link field is filled. |
| App.LinksMembers | app.py:121-141 | A url is among the links exactly when it is non-empty and some row holds it. |
| App.LinksComplete | app.py:144-146 | `len(music_links) == num_songs` exactly when every row is filled, and then the links are the rows' urls in order. |
| App.StartsKeys | app.py:140-142 | A url has a start time exactly when it is among the links. |
| App.StartsLastWins | app.py:138-142 | A url's start time is the one in its last filled row, so later duplicates overwrite earlier ones. |
| App.CacheKeeps | app.py:127-132 | A title already cached is never replaced. |
| App.CacheKeys | app.py:125-130 | After the loop, the cache holds exactly the urls it held before plus every collected link. |
| App.CacheFetched | app.py:127-130 | A url that was not cached before maps to the title fetched for it. |
| App.FetchedOnce | app.py:127-130 | A title is fetched for exactly the collected links the cache did not hold, and for each of them only once. |
| App.ShownTitles | app.py:125-135 | One title is shown per link. Each is the title the cache holds for that link at the end of the loop. |
| App.RandomSample | app.py:149-150 | `random.sample(music_links, len(music_links))` returns a list of the same length with the same elements, counted with multiplicity. |
| App.Session.InitializeSessionState | app.py:14-20 | Each of `song_titles` and `uploaded_tchica` is created empty only when it is missing, and is otherwise kept. |
| App.Session.StoreUpload | app.py:46-47 | A file uploaded in this run replaces the stored clip. Otherwise the stored value and the title cache stay as they were. |
| App.Session.CollectSongs | app.py:114-142 | The loop returns the links `Links`, the start times `Starts`, the shown titles `Shown` and the fetched urls `Fetches`. It leaves the cache as `Cache`. |
| App.Session.Run | app.py:23-154 | The run stops at the name only when the name is empty, and at the validator only when the name is rejected; the stop carries the validator's message. In both cases no link is collected and nothing is fetched. With a valid name, the run stops at the links exactly when fewer links than rows were filled. Otherwise it always goes on: the playlist is built when the button is pressed, and the run ends ready without it otherwise. 'In Order' keeps the link order and 'Random Order' gives a reordering. The track is the one `create_playlist` builds from the clips loaded with this run's upload. |

## Left out

- Network and file I/O.
  - `yt_dlp`, the ffmpeg conversion and every file read or written are outside the model, including `temp_tchica.m4a`, which is written and never removed.
  - The downloader and the title fetch are parameters.
  - An exception from either is not modelled, so the model never stops half-way through the songs.
  - Decoding a file into audio (`AudioSegment.from_file`) is part of the `download` parameter and of `ClipFiles`.
- `utils/config_manager.py` is not part of this model. The configuration values are parameters, and `SOUND_CLIPS_PATH` is folded into `ClipFiles`.
- `@st.cache_resource` on `load_sound_clips` is not modelled. Each run loads the clips afresh from the current session. The real cache ignores its underscore-prefixed arguments, so it does not follow uploads made after the first load.
- The Streamlit widgets, spinner, `st.write`, balloons, the mp3 export and the download button (app.py:153-170) are left out. Titles shown with `st.write` are returned as a list instead.
- The `number_input` bounds on the number of songs (1 to `MAX_NUMBER_SONGS`) and on the start time (at least 0) are left out. The number of rows is the number of songs; start times are `nat`.
- Floating point: progress is the pair `(done, total)`, not the float `done / total`.
- Audio works at millisecond resolution. pydub's frame rounding and its other negative slice indices are not modelled.
- Audio.DropTail: a clip shorter than `k` ms is modelled as empty. pydub's arithmetic on a negative end position is not modelled, and it can keep part of such a clip. The function requires `k > 0` because `[:-0]` means something else in Python, and both call sites use 300 or 1300.
- App.RandomSample: models only the pool branch of `random.sample`. That is the branch taken when the sample is the whole population. The random numbers are the parameter `draws`, each below the size of the remaining pool, as `randbelow` guarantees.
- App.Session.Run: requires `draws` to be well-formed for the number of rows even in runs that do not shuffle.
