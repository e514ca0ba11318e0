# micServer video core in Dafny

This project models the video router of micServer, an Express server that
fetches YouTube videos with `yt-dlp`, cuts and segments them with `ffmpeg`, and
serves the result as HLS. It also models the two services the router calls. The
model covers three parts:

- **Request gates.** The `/^https?:\/\/(www\.)?(youtube\.com|youtu\.be)\//`
  prefix test of the clip routes, the hostname test `isYouTube`, and the
  parameter guards that run before any job starts.
- **Derived names.** The paths every job writes and serves
  (`tmp/hls/<id>/playlist.m3u8`, `segment%d.ts`, `tmp/<id>_temp.mp4`,
  `downloads/temp_<ts>.mp4`, `downloads/clip_<ts>.mp4`, the input basename
  without its extension), the argument vectors handed to the tools, the
  quality-tier table, and the base-36 job id.
- **Job outcomes.** `extractSegment` (probe, download, trim, verify),
  `convertToHLS` and `convertToHLSWithTranscode`, `downloadAndConvertToHLS`
  with its temp-file cleanup, and the routes that report them. This includes
  the streamed status events of `/download` and `/direct`.

The environment is abstract. `Env.WorldState` holds the file set, the
directory set and the trace of effects: directories made, programs run,
encoder jobs, and unlinks. A tool run is not executed. Its outcome is an input:
- an `ExecOutcome` for `execFile`: the failure message, the stdout text, the
  stderr text, and the files created;
- a `SpawnOutcome` for `spawn`: either an 'error' event, or a 'close' event
  with an exit status and the files created;
- an `EncodeOutcome` for a fluent-ffmpeg command;
- for `fs.unlink`, whether the system refuses the deletion.

An existence test (`fs.existsSync`, `fs.access`) is true for a file or a
directory, as in Node. Every state-changing operation is a method that
updates an `Env.World` object in place, through the class's own methods, and,
for streamed replies, a `VideoRoute.Response` object. Each method is proved equal to a
spec function that returns the new state and the result. The properties are
stated on those spec functions and in lemmas.

Modules:

- `Wrappers` holds `Option` and `Result`.
- `Text` holds the prefix and suffix tests and JavaScript's `String.prototype.trim`.
- `Radix` holds `Number.prototype.toString(base)` and its inverse.
- `NodePath` holds `path.join`, `basename` and `extname` for clean segments.
- `Env` holds the world, the process outcomes and the option-vector lookup.
- `VideoService` is `src/video/video.service.ts`.
- `HlsService` is `src/video/video.service1.ts`.
- `UrlGate` and `VideoRoute` are `src/video/video.route.ts`.

Two paths are parameters:
- `TMP_DIR` is `path.resolve("./tmp")`, so it is absolute: routes take it as `tmpRoot`.
- The services' downloads directory, `__dirname/../../downloads`, is a parameter `dir`.

The services' own defaults are relative. They are `tmp` and `tmp/hls`
(`HlsService.TmpDir` and `HlsService.DefaultOutputDir`).

## Model

| member | source | states |
|---|---|---|
| UrlGate.IsYouTube | src/video/video.route.ts:17-24 | accepted iff a hostname exists (the URL parsed) and it equals, or ends with "." followed by, `youtube.com` or `youtu.be`; proved from a position-by-position model of the unanchored alternation regex |
| UrlGate.SearchFromMeaning | src/video/video.route.ts:21 | the regex search from position k succeeds iff some position at or after k starts an anchored match of one of the two names |
| UrlGate.LookAlikeRejected | src/video/video.route.ts:21 | a host `<x>youtube.com` whose x does not end in "." is rejected (so `evilyoutube.com` fails) |
| UrlGate.SubdomainsAccepted | src/video/video.route.ts:21 | every host of the form `<x>.youtube.com` or `<x>.youtu.be` is accepted |
| UrlGate.MatchesMeaning | src/video/video.route.ts:72 | the anchored piece-sequence pattern matches at i iff one of its literal expansions occurs at i |
| UrlGate.ClipPatternExpansions | src/video/video.route.ts:72 | the expansions of the prefix pattern (http, optional s, ://, optional www., youtube.com or youtu.be, /) are exactly the eight literal prefixes |
| UrlGate.IsClipUrl | src/video/video.route.ts:72-73 | a URL passes iff it starts with one of the eight prefixes: http or https, ://, optionally www., youtube.com or youtu.be, then /; the rest is unconstrained |
| UrlGate.GatesDisagree | src/video/video.route.ts:17-24 | the two gates differ: `m.youtube.com` passes the hostname test but `https://m.youtube.com/...` fails the prefix test |
| VideoRoute.ClipGate | src/video/video.route.ts:68-75 | Ok iff url, start and end are all strings and the URL passes the prefix test; the error is "Missing or invalid parameters" for a non-string and "Only YouTube URLs are allowed" for a bad URL |
| VideoRoute.JobGate | src/video/video.route.ts:119-123 | admitted iff the url is present and non-empty and its hostname is under youtube.com or youtu.be |
| VideoRoute.PlaylistRoute | src/video/video.route.ts:217-219 | a URL that routes to the playlist route yields a non-empty, '/'-free id whose playlist URL is that URL |
| VideoRoute.PlaylistUrlRoutes | src/video/video.route.ts:205 | the playlist URL of a clean id routes back to that id |
| VideoRoute.Play | src/video/video.route.ts:30-64 | 200 iff a file or directory is at TMP_DIR/hls/<id>/playlist.m3u8, with the page loading exactly /video/hls/<id>/playlist.m3u8; else 404 "Playlist not found" |
| VideoRoute.PlayerLoadsServedPlaylist | src/video/video.route.ts:52 | for a clip id of unreserved URL characters that is not `.` or `..`, the URL the player loads routes to the playlist route for the same clip; that route sends the file /play checked, or passes the request on when a directory is there |
| VideoRoute.ServePlaylist | src/video/video.route.ts:217-227 | 200 with application/vnd.apple.mpegurl iff the playlist is a file; 404 "Playlist not found" iff nothing is there; the request is passed on iff a directory is there (res.sendFile calls next() on EISDIR) |
| VideoRoute.ServeSegment | src/video/video.route.ts:230-240 | 200 with video/MP2T iff TMP_DIR/hls/<id>/<segment> is a file whose name does not start with '.'; 404 "Segment not found" iff nothing is there; a 404 through the error handlers (send's default dotfile policy) iff something is there under a name starting with '.'; passed on iff a directory is there under any other name |
| VideoRoute.ServeHls | src/video/video.route.ts:217-240 | a last path segment that lower-cases (ASCII) to playlist.m3u8, as requested and before decoding, is taken by the route declared first; any other, or one the playlist route passes on, goes to the segment route with the decoded name; a request is always answered, passed on, or handed to the error handlers with 404, and a 200 always sends a file that is there |
| VideoRoute.CapitalNameServesPlaylist | src/video/video.route.ts:217-227 | `PLAYLIST.M3U8` reaches the playlist route, because Express matches case-insensitively, and gets the lower-case playlist file |
| VideoRoute.PlaylistDirectoryPassedOn | src/video/video.route.ts:217-240 | when a directory stands at the playlist path, both /hls routes pass the request for playlist.m3u8 on, and it leaves the router |
| VideoRoute.EscapedNameIsSegment | src/video/video.route.ts:217-240 | a last segment holding a percent-escape goes to the segment route, even one that decodes to playlist.m3u8, because routes match the undecoded path |
| VideoRoute.ServeFile | src/video/video.route.ts:171-186 | 200 with an attachment under its name iff TMP_DIR/<filename> is a file whose name does not start with '.'; 404 "File not found" iff nothing is there; no reply at all iff something is there that is a directory or has a name starting with '.', because the res.download callback acts only on success |
| VideoRoute.EnsureTmpDir | src/video/video.route.ts:11-14 | TMP_DIR exists afterwards; it is made only when absent |
| VideoRoute.DownloadClipRun | src/video/video.route.ts:67-88 | 400 iff the gate rejects, with the state unchanged (extractSegment never runs); an admitted request leaves extractSegment's state and answers 200 iff extractSegment resolves, with the clip path, which exists; otherwise 500 with the rejection's message |
| VideoRoute.DownloadClip | src/video/video.route.ts:67-88 | the handler's state and reply are those of DownloadClipRun |
| VideoRoute.DownloadHlsClipRun | src/video/video.route.ts:91-113 | 400 iff the gate rejects, with the state unchanged; a failed extractSegment gives 500 with its message and no conversion; otherwise convertToHLS runs on the clip, the state is the conversion's, and the reply is 200 with tmp/hls/clip_<ts>/playlist.m3u8 iff the encode succeeds, else 500 with the encoder's message |
| VideoRoute.DownloadHlsClip | src/video/video.route.ts:91-113 | the handler's state and reply are those of DownloadHlsClipRun |
| VideoRoute.ClipNameClean | src/video/video.service.ts:37 | `clip_<ts>` holds no '/', so convertToHLS names its directory after it |
| VideoRoute.StreamRun | src/video/video.route.ts:189-214 | 404 "Video file not found" iff nothing is at TMP_DIR/<id>.mp4, with the state unchanged; otherwise the state is that of convertToHLS on it, and the reply is 200 iff the encode succeeds, with playlistUrl /video/hls/<id>/playlist.m3u8 and m3u8Path tmp/hls/<id>/playlist.m3u8, else 500 "Failed to convert to HLS" with the encoder's message as details |
| VideoRoute.Stream | src/video/video.route.ts:189-214 | the handler's state and reply are those of StreamRun |
| VideoRoute.StreamPlaylistServed | src/video/video.route.ts:200-206 | for an id of unreserved URL characters that is not `.` or `..`, when TMP_DIR is the working directory's `tmp`, the reported m3u8Path resolves to the file that the reported playlistUrl serves |
| VideoRoute.PlaylistNotHidden | src/video/video.route.ts:222-226 | the playlist file's name never starts with '.', so send's dotfile policy never refuses it |
| VideoRoute.HiddenFilesRefused | src/video/video.route.ts:171-240 | a file whose name starts with '.' is never sent: the segment route gives the error handlers' 404 and /file gives no reply |
| VideoRoute.DirectMakesHlsRoot | src/video/video.service1.ts:135-140 | after a /direct job, tmp/hls is a directory, so /file/hls with TMP_DIR the working directory's tmp gives no reply |
| VideoRoute.JobId | src/video/video.route.ts:125 | the id is canonical lower-case base-36, decodes to the timestamp, is non-empty and holds no '/' or '.' |
| VideoRoute.Matching | src/video/video.route.ts:151 | an entry is kept iff it is listed and its name starts with the id |
| VideoRoute.FirstMatch | src/video/video.route.ts:151-153 | None iff no listed name starts with the id; otherwise the earliest listed entry whose name does |
| VideoRoute.CloseEvent | src/video/video.route.ts:148-165 | done iff exit code 0 and some listed name starts with the id, carrying the first such name and its size; error "no file" for code 0 without one; "yt-dlp exited with code <code>" otherwise (a killed child prints null) |
| VideoRoute.DownloadStream | src/video/video.route.ts:135-167 | after a close: one start line with the id, one terminal line from CloseEvent, then the end; after a spawn error: only the start line, unended |
| VideoRoute.DownloadStreamCorrected | src/video/video.route.ts:135-167 | with an 'error' listener, every admitted job gets a start line, exactly one terminal line, then the end |
| VideoRoute.LastLine | src/video/video.route.ts:139-143 | lastLine is the trimmed last stdout chunk, or "" when there was none |
| VideoRoute.Download | src/video/video.route.ts:118-168 | rejected: 400 "Invalid YouTube URL" and no effect; admitted: exactly one yt-dlp run with the fixed vector and output template TMP_DIR/<id>.%(ext)s, and the stream DownloadStream gives |
| VideoRoute.Direct | src/video/video.route.ts:243-274 | rejected: 400 "Invalid YouTube URL" and no effect; admitted: the state of downloadAndConvertToHLS with tmp/hls, and a start line, one done or error line, then the end |
| VideoRoute.DirectSettles | src/video/video.route.ts:250-272 | every admitted /direct job settles; a done line's playlistUrl routes to its id, and its m3u8Path resolves to the file that route sends |
| VideoService.ExecFileResult | src/video/video.service.ts:9-17 | Ok iff the child did not fail, carrying both streams; a failure rejects with stderr when that is non-empty, else with the error message |
| VideoService.CheckYtDlp | src/video/video.service.ts:19-27 | installed iff the `yt-dlp --version` probe succeeds; only that probe is run |
| VideoService.FileNamesDistinct | src/video/video.service.ts:35-37 | the temp and clip names never coincide; distinct timestamps give distinct names |
| VideoService.NameCarriesNumber | src/video/video.service.ts:36-37 | equal file names mean equal timestamps |
| VideoService.ExtractRun | src/video/video.service.ts:29-65 | the effects are a non-empty prefix of probe, mkdir, download, trim, in that order; a failed probe gives "yt-dlp is not installed" before the mkdir; a failed download or trim aborts with its execFile error; a successful download always runs the trim; the files afterwards are the old ones plus those each run that took place created, and the directory and each of its ancestors are made iff the probe succeeds; after a successful trim the result is the clip path iff a file or directory is at its path in that final state, else "Output file was not created"; the temp file is never unlinked |
| VideoService.ExtractSegment | src/video/video.service.ts:29-65 | the method's state and result are those of ExtractRun |
| HlsService.ConvertLayout | src/video/video.service1.ts:25-29 | the playlist is outputDir/<basename minus extension>/playlist.m3u8, and the segments are segment%d.ts in the same directory |
| HlsService.ConvertLayoutOfMp4 | src/video/video.service1.ts:25-29 | for an input dir/<id>.mp4 the layout is the one of id |
| HlsService.LayoutsDisjoint | src/video/video.service1.ts:26-29 | distinct clean ids get distinct directories, playlists and segment patterns |
| HlsService.HlsJobSegmenting | src/video/video.service1.ts:35-44 | the convertToHLS options set start_number 0, hls_time 10 and hls_list_size 0, name the segments after the layout, and select the hls muxer |
| HlsService.TranscodeJobSegmenting | src/video/video.service1.ts:99-106 | the transcoding options set the same start number, segment length and list size, select hls, and give no segment filename |
| HlsService.ConvertRun | src/video/video.service1.ts:18-60 | the effects are mkdir outputDir, mkdir the id directory, then one encode of the job; the directories afterwards are the old ones plus those two and all their ancestors (mkdir is recursive), and the files the old ones plus what the encoder wrote; the result is the playlist path iff the encode succeeds, and otherwise its error |
| HlsService.ConvertToHls | src/video/video.service1.ts:18-60 | the method's state and result are those of ConvertRun, on the convertToHLS layout and job |
| HlsService.ConvertToHlsWithTranscode | src/video/video.service1.ts:70-122 | the same for the transcoding job, with the tier's bitrates and size; medium is the default |
| HlsService.QualityOrDefault | src/video/video.service1.ts:73 | a missing quality is medium; a given one is kept |
| HlsService.QualitySettings | src/video/video.service1.ts:84-90 | high is (5000k, 192k, 1920:1080), medium is (2500k, 128k, 1280:720), low is (1000k, 96k, 854:480) |
| HlsService.TierFigures | src/video/video.service1.ts:84-88 | each tier's strings parse to the numbers in its name |
| HlsService.TiersOrdered | src/video/video.service1.ts:84-88 | a higher tier has strictly higher video and audio bitrates and a larger frame; all frames are 16:9 up to rounding |
| HlsService.DirectLayout | src/video/video.service1.ts:137-144 | playlist hlsDir/<id>/playlist.m3u8, segments hlsDir/<id>/segment%d.ts, temp tmp/<id>_temp.mp4 |
| HlsService.DirectSegmenting | src/video/video.service1.ts:171-185 | the ffmpeg vector reads the temp file, sets hls_time 10 and hls_list_size 0, names the segments, and ends with the playlist |
| HlsService.DirectNumbering | src/video/video.service1.ts:171-185 | the direct vector sets no start number, unlike the two converters |
| HlsService.FfmpegProgram | src/video/video.service1.ts:187 | the program spawned is never empty: the ffmpeg-static path when it is a non-empty string, otherwise "ffmpeg" |
| HlsService.DirectRun | src/video/video.service1.ts:132-221 | mkdir tmp and the id directory, then yt-dlp; the directories afterwards are the old ones plus those two and all their ancestors, so the HLS root itself is made on the first job; a spawn error rejects with its message, and a nonzero exit rejects with "yt-dlp exited with code N", in both cases without starting ffmpeg or unlinking, leaving the old files plus yt-dlp's; once ffmpeg was attempted, the files are the old ones plus both tools' outputs, minus the temp file unless its deletion was refused; the result is the playlist iff ffmpeg exits 0, else "ffmpeg exited with code N" or the spawn message |
| HlsService.DeletionFailureIgnored | src/video/video.service1.ts:197-211 | the outcome is the same whether or not the temp file was there to delete and whether or not its deletion was refused |
| HlsService.DownloadAndConvertToHls | src/video/video.service1.ts:132-221 | the method's state and result are those of DirectRun on the supplied outcomes |
| Radix.RenderThenParse | src/video/video.route.ts:125 | parsing the base-b rendering of n gives n |
| Radix.ParseThenRender | src/video/video.route.ts:125 | a canonical numeral is the rendering of its value |
| Radix.RenderInjective | src/video/video.route.ts:125 | distinct timestamps give distinct ids |
| Radix.Render | src/video/video.route.ts:125 | the rendering is canonical: digits of the base, no leading zero, one digit iff n is below the base |
| Radix.IntText | src/video/video.route.ts:164 | the decimal text of an integer: a '-' sign iff negative, otherwise canonical digits |
| Text.Trim | src/video/video.route.ts:142 | the result is a slice with no JavaScript whitespace at either end, and only whitespace was removed |
| NodePath.Stem | src/video/video.service1.ts:25 | the stem followed by the extname is the basename; a non-empty basename has a non-empty stem |
| NodePath.StemOfJoin | src/video/video.service1.ts:25 | for dir/<name>.<ext> with clean parts, extname is .<ext> and the stem is name |
| NodePath.DistinctDirsDisjoint | src/video/video.route.ts:232 | files under two distinct clean subdirectories never coincide |
| Env.AncestryMeaning | src/video/video.service1.ts:139-140 | a recursive mkdir of a path makes exactly the path and each of its '/'-prefixes |
| Env.SkipTo | src/video/video.service1.ts:35-43 | an option lookup may skip leading flag/value pairs that do not carry the flag |

## Left out

- The tools are not run. yt-dlp, ffmpeg and fluent-ffmpeg are given outcomes: exit status or spawn error, stderr and the files they create.
- `new URL`: the hostname is an input, with None when the URL does not parse.
- `Date.now()` is an input.
- `path.join` normalisation and `path.resolve`: joins are '/'-concatenation. TMP_DIR and the downloads directory are parameters.
- The `/` health-check route: it sends a fixed text and changes nothing.
- JSON framing, headers, `sendFile`/`res.download` transfer, and the HTML of the player page: a page is modelled only by the URL it loads.
- Logging, and the progress percentage, which is floating point and only logged.
- Concurrency and callback interleaving: each request is one sequential run.
- Query values on `/download` and `/direct` are modelled as `Option<string>`. `req.query.url as string` is a cast only, and a repeated key is not modelled there.
- VideoRoute.Download: the TMP_DIR listing after yt-dlp closes is an input, ordered as readdir returns it. It is not derived from the world's file set, which has no order.
- VideoRoute.LastLine: lastLine is computed but never sent, so it does not reach the reply.
- HlsService.DownloadAndConvertToHls: when a spawn 'error' is followed by a 'close', the promise is already settled, so the outcome is unchanged. The second, swallowed unlink that the 'close' would attempt is not in the trace.
- HlsService.ConvertToHlsWithTranscode: fluent-ffmpeg's handling of the `W:H` size string is not modelled. The string is passed through as given.
- `server.ts` and the compiled `dist/server.js` are not part of this model.
- Directory creation never fails: `fs.mkdir` (video.service.ts:33, video.service1.ts:23, 27, 75, 79, 139-140) is assumed to resolve. In the code a rejection such as EEXIST or ENOTDIR, when a file stands at `tmp/hls`, ends extractSegment, convertToHLS or downloadAndConvertToHLS with that error; `AfterMakeDir` has no such outcome. The same holds for `fs.mkdirSync` at video.route.ts:13, which VideoRoute.EnsureTmpDir models.
- VideoRoute.ServeHls: the parameters' percent-decoding is not modelled. The decoded id and segment are inputs beside the raw last segment, and a malformed escape, which Express answers with 400, is not modelled. The optional trailing `/` the router also accepts is not modelled.
- VideoRoute.ServeHls: a request passed on by both /hls routes leaves this router. What the application does with it then depends on `server.ts`, which is not part of this model. The res.sendFile behaviour on a directory (next() on EISDIR) is that of Express 4.
- VideoRoute.PlaylistRoute: it recognises only the exact lower-case `/video/hls/<id>/playlist.m3u8`, and the id is the raw path segment. The case-insensitive variants that ServeHls accepts are not routed by it.
- VideoRoute.PlayerLoadsServedPlaylist: /play writes the decoded clip id into the page unescaped. An id with a reserved character, a `%`, or a dot segment is rewritten by the browser or decoded again by the router, so the lemma covers only ids of unreserved characters.
- VideoRoute.StreamPlaylistServed: /stream reports the decoded id unescaped in playlistUrl. An id with a reserved character, a `%`, or a dot segment does not come back through that URL, so the lemma covers only ids of unreserved characters other than `.` and `..`.
- VideoRoute.ServeSegment, VideoRoute.ServeFile: the dotfile rule is that of send's default in Express 4, which looks only at the last path part. A '.' in an earlier part, possible once paths are normalised, is not modelled, because joins are not normalised.
- Path sanitisation: `/file/:filename` and `/hls/:videoId/:segment` do none, and the model claims no confinement to TMP_DIR.

## Findings

| source | as written | input that shows it | evidently intended | confidence | as-written member | corrected member |
|---|---|---|---|---|---|---|
| src/video/video.route.ts:137-167 | `/download` listens for 'close' on the yt-dlp child but not for 'error'; Node emits 'error' when the binary cannot be spawned, and an 'error' event without a listener is thrown, with no handler installed in server.ts | an admitted `/download` request on a host without `yt-dlp` on the PATH (SpawnOutcome SpawnError) | the failure is reported as one error line and the response is ended, as `/direct` does through downloadAndConvertToHLS's 'error' listener | not executed | VideoRoute.SpawnFailureBreaksProtocol | VideoRoute.DownloadStreamCorrected |

`VideoRoute.Download` follows the code as written. `VideoRoute.DownloadStream` is the stream it leaves. `VideoRoute.SpawnFailureBreaksProtocol` shows that a spawn failure leaves the stream unsettled. `VideoRoute.DownloadStreamCorrected` is the stream with the missing listener added. It settles for every outcome, and agrees with the as-written stream whenever the child closes.
