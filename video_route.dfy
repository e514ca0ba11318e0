/** src/video/video.route.ts: the request gates, the paths the routes serve,
    the clip routes, and the streamed /download and /direct jobs. */
module VideoRoute {
  import opened Wrappers
  import opened Text
  import Radix
  import opened NodePath
  import opened Env
  import opened UrlGate
  import VideoService
  import HlsService

  // ---------------------------------------------------------------- replies

  /** A response body, by the shape of the JSON object or the kind of content
      the route sends. */
  datatype Body =
    | Plain(text: string)
    | ErrorJson(error: string)
    | ErrorDetails(error: string, details: string)
    | ClipSaved(message: string, file: string)
    | HlsClipSaved(message: string, m3u8Path: string)
    | StreamReady(status: string, message: string, m3u8Path: string, playlistUrl: string)
    | PlayerPage(source: string)
    | FileSent(path: string, contentType: string)
    | Attachment(path: string, filename: string)

  datatype Reply = Reply(status: nat, body: Body)

  const MpegUrl := "application/vnd.apple.mpegurl"
  const TransportStream := "video/MP2T"
  const MissingParams := "Missing or invalid parameters"
  const OnlyYouTube := "Only YouTube URLs are allowed"
  const InvalidUrl := "Invalid YouTube URL"
  const ClipMessage := "Segment downloaded successfully"
  const HlsClipMessage := "Segment downloaded and converted to HLS successfully"

  // ---------------------------------------------------------------- gates

  /** A query-string value as Express's parser hands it over: missing, one
      string, a repeated key, or a bracketed object. */
  datatype QueryValue = Absent | Str(s: string) | Many(items: seq<string>) | Nested

  datatype ClipRequest = ClipRequest(url: string, start: string, end: string)

  /** The guards of /downloadClip and /downloadHlsClip: all three parameters
      must be strings, then the URL must start with an allowed prefix. */
  function ClipGate(url: QueryValue, start: QueryValue, end: QueryValue): (r: Result<ClipRequest>)
    ensures r.Ok? <==> url.Str? && start.Str? && end.Str? &&
                       exists k :: 0 <= k < |AllowedPrefixes| && StartsWith(url.s, AllowedPrefixes[k])
    ensures r.Ok? ==> r.value == ClipRequest(url.s, start.s, end.s)
    ensures r.Err? ==> r.message == (if url.Str? && start.Str? && end.Str? then OnlyYouTube else MissingParams)
  {
    if !(url.Str? && start.Str? && end.Str?) then Err(MissingParams)
    else if !IsClipUrl(url.s) then Err(OnlyYouTube)
    else Ok(ClipRequest(url.s, start.s, end.s))
  }

  /** The guard of /download and /direct: a non-empty url whose hostname (None
      when `new URL` cannot parse it) is youtube.com, youtu.be or below. */
  function JobGate(url: Option<string>, host: Option<string>): (ok: bool)
    ensures ok <==> url.Some? && url.value != "" && host.Some? &&
                    (UnderDomain(host.value, "youtube.com") || UnderDomain(host.value, "youtu.be"))
  {
    url.Some? && url.value != "" && IsYouTube(host)
  }

  // ---------------------------------------------------------------- paths

  function HlsRoot(tmpRoot: string): string
  {
    Join(tmpRoot, "hls")
  }

  /** The playlist /play checks and /hls/:videoId/playlist.m3u8 sends. */
  function PlaylistFile(tmpRoot: string, id: string): string
  {
    Join(Join(HlsRoot(tmpRoot), id), HlsService.PlaylistName)
  }

  /** The URL under which a rendition's playlist is served. */
  function PlaylistUrl(id: string): string
  {
    "/video/hls/" + id + "/playlist.m3u8"
  }

  const PlaylistUrlHead := "/video/hls/"
  const PlaylistUrlTail := "/playlist.m3u8"

  /** Routing of a URL to /hls/:videoId/playlist.m3u8: the id, a non-empty
      segment without '/', when the URL has that shape. */
  function PlaylistRoute(url: string): (id: Option<string>)
    ensures id.Some? ==> id.value != "" && Lacks(id.value, '/') && PlaylistUrl(id.value) == url
  {
    if |url| > |PlaylistUrlHead| + |PlaylistUrlTail| && StartsWith(url, PlaylistUrlHead) && EndsWith(url, PlaylistUrlTail)
    then
      var v := url[|PlaylistUrlHead|..|url| - |PlaylistUrlTail|];
      assert url == url[..|PlaylistUrlHead|] + v + url[|url| - |PlaylistUrlTail|..];
      if Lacks(v, '/') then Some(v) else None
    else None
  }

  /** The playlist URL of an id routes back to that id. */
  lemma PlaylistUrlRoutes(id: string)
    requires id != "" && Lacks(id, '/')
    ensures PlaylistRoute(PlaylistUrl(id)) == Some(id)
  {
    var u := PlaylistUrl(id);
    assert u == PlaylistUrlHead + id + PlaylistUrlTail;
    assert u[..|PlaylistUrlHead|] == PlaylistUrlHead;
    assert u[|u| - |PlaylistUrlTail|..] == PlaylistUrlTail;
    assert u[|PlaylistUrlHead|..|u| - |PlaylistUrlTail|] == id;
  }

  // ---------------------------------------------------------------- file routes

  /** What a file route does with a request: it sends a reply, it passes the
      request on to the next matching route, it hands an error with an HTTP
      status to the error handlers (next(err)), or it never answers. */
  datatype Answer = Sent(reply: Reply) | PassedOn | ErrorHandled(status: nat) | Unanswered

  /** The file transfer that res.sendFile and res.download use refuses, by
      default, a path whose last part starts with '.', with status 404. */
  predicate Hidden(path: string)
  {
    Basename(path) != "" && Basename(path)[0] == '.'
  }

  /** GET /play/:clipId: the hls.js page loading the clip's playlist URL, or
      404 when nothing is at the playlist's path. */
  function Play(s: WorldState, tmpRoot: string, clipId: string): (r: Reply)
    ensures r.status == 200 <==> s.Present(PlaylistFile(tmpRoot, clipId))
    ensures r.status != 200 ==> r == Reply(404, ErrorJson("Playlist not found"))
    ensures r.status == 200 ==> r == Reply(200, PlayerPage(PlaylistUrl(clipId)))
  {
    if !s.Present(PlaylistFile(tmpRoot, clipId)) then Reply(404, ErrorJson("Playlist not found"))
    else Reply(200, PlayerPage(PlaylistUrl(clipId)))
  }

  /** GET /hls/:videoId/playlist.m3u8. A directory passes the existence test,
      and res.sendFile then hands the request to the next matching route. */
  function ServePlaylist(s: WorldState, tmpRoot: string, id: string): (r: Answer)
    ensures r == Sent(Reply(200, FileSent(PlaylistFile(tmpRoot, id), MpegUrl))) <==> PlaylistFile(tmpRoot, id) in s.files
    ensures r == Sent(Reply(404, Plain("Playlist not found"))) <==> !s.Present(PlaylistFile(tmpRoot, id))
    ensures r == PassedOn <==> PlaylistFile(tmpRoot, id) in s.dirs && PlaylistFile(tmpRoot, id) !in s.files
  {
    var path := PlaylistFile(tmpRoot, id);
    if !s.Present(path) then Sent(Reply(404, Plain("Playlist not found")))
    else if path in s.files then Sent(Reply(200, FileSent(path, MpegUrl)))
    else PassedOn
  }

  /** GET /hls/:videoId/:segment, the same for any name below the clip's
      directory, except that a hidden name is refused. */
  function ServeSegment(s: WorldState, tmpRoot: string, id: string, segment: string): (r: Answer)
    ensures var path := Join(Join(HlsRoot(tmpRoot), id), segment);
            && (r == Sent(Reply(200, FileSent(path, TransportStream))) <==> path in s.files && !Hidden(path))
            && (r == Sent(Reply(404, Plain("Segment not found"))) <==> !s.Present(path))
            && (r == ErrorHandled(404) <==> s.Present(path) && Hidden(path))
            && (r == PassedOn <==> path in s.dirs && path !in s.files && !Hidden(path))
  {
    var path := Join(Join(HlsRoot(tmpRoot), id), segment);
    if !s.Present(path) then Sent(Reply(404, Plain("Segment not found")))
    else if Hidden(path) then ErrorHandled(404)
    else if path in s.files then Sent(Reply(200, FileSent(path, TransportStream)))
    else PassedOn
  }

  /** Express matches routes case-insensitively and on the path as it stands,
      before percent-decoding the parameters: the playlist route takes every
      last segment that lower-cases to playlist.m3u8. */
  predicate NamesPlaylist(raw: string)
  {
    Lower(raw) == HlsService.PlaylistName
  }

  /** Whether a directory, and no file, stands at path. */
  predicate DirectoryAt(s: WorldState, path: string)
  {
    path in s.dirs && path !in s.files
  }

  /** Dispatch between the two /hls routes in declaration order. raw is the
      last path segment as requested; id and name are the decoded videoId and
      segment parameters. A request the playlist route passes on reaches the
      segment route, and one that route passes on leaves the router. */
  function ServeHls(s: WorldState, tmpRoot: string, id: string, raw: string, name: string): (r: Answer)
    ensures NamesPlaylist(raw) && !DirectoryAt(s, PlaylistFile(tmpRoot, id)) ==> r == ServePlaylist(s, tmpRoot, id)
    ensures !NamesPlaylist(raw) || DirectoryAt(s, PlaylistFile(tmpRoot, id)) ==> r == ServeSegment(s, tmpRoot, id, name)
    // a request is never left unanswered, and a 200 always sends a file that is there
    ensures !r.Unanswered?
    ensures r.ErrorHandled? ==> r.status == 404
    ensures r.Sent? ==> r.reply.status in {200, 404}
    ensures r.Sent? && r.reply.status == 200 ==> r.reply.body.FileSent? && r.reply.body.path in s.files
  {
    var playlist := ServePlaylist(s, tmpRoot, id);
    if NamesPlaylist(raw) && !playlist.PassedOn? then playlist else ServeSegment(s, tmpRoot, id, name)
  }

  /** The playlist's name is not hidden. */
  lemma PlaylistNotHidden(tmpRoot: string, id: string)
    ensures !Hidden(PlaylistFile(tmpRoot, id))
  {
    var p := HlsService.PlaylistName;
    assert p[0] == 'p';
    assert Lacks(p, '/');
    BasenameOfJoin(Join(HlsRoot(tmpRoot), id), p);
  }

  /** playlist.m3u8 itself reaches the playlist route. */
  lemma PlaylistNameFolds()
    ensures NamesPlaylist(HlsService.PlaylistName)
  {
    var p := HlsService.PlaylistName;
    assert forall j :: 0 <= j < |p| ==> !('A' <= p[j] <= 'Z');
    LowerKeeps(p);
  }

  /** The name in capitals still reaches the playlist route, which sends the
      lower-case playlist file. */
  lemma CapitalNameServesPlaylist(s: WorldState, tmpRoot: string, id: string, raw: string, name: string)
    requires raw == "PLAYLIST.M3U8"
    requires PlaylistFile(tmpRoot, id) in s.files
    ensures ServeHls(s, tmpRoot, id, raw, name) == Sent(Reply(200, FileSent(PlaylistFile(tmpRoot, id), MpegUrl)))
  {
    var p := HlsService.PlaylistName;
    assert |Lower(raw)| == |p|;
    forall k | 0 <= k < |p| ensures Lower(raw)[k] == p[k] {
      assert Lower(raw)[k] == LowerChar(raw[k]);
    }
  }

  /** A last segment holding a percent-escape never reaches the playlist route,
      even when it decodes to playlist.m3u8: the segment route sends it. */
  lemma EscapedNameIsSegment(s: WorldState, tmpRoot: string, id: string, raw: string, name: string, k: nat)
    requires k < |raw| && raw[k] == '%'
    ensures ServeHls(s, tmpRoot, id, raw, name) == ServeSegment(s, tmpRoot, id, name)
  {
    var p := HlsService.PlaylistName;
    assert Lower(raw)[k] == '%';
    assert forall j :: 0 <= j < |p| ==> p[j] != '%';
  }

  /** A directory at the playlist's path passes both /hls routes, and the
      request for playlist.m3u8 leaves the router. */
  lemma PlaylistDirectoryPassedOn(s: WorldState, tmpRoot: string, id: string)
    requires DirectoryAt(s, PlaylistFile(tmpRoot, id))
    ensures ServeHls(s, tmpRoot, id, HlsService.PlaylistName, HlsService.PlaylistName) == PassedOn
  {
    PlaylistNameFolds();
    PlaylistNotHidden(tmpRoot, id);
  }

  /** GET /file/:filename: an attachment straight out of TMP_DIR. The name is
      not sanitised, so nothing here confines it to that directory. A
      directory or a hidden name passes the existence test; res.download then
      reports the failure to a callback that only logs successes, and no reply
      is sent. */
  function ServeFile(s: WorldState, tmpRoot: string, filename: string): (r: Answer)
    ensures r == Sent(Reply(200, Attachment(Join(tmpRoot, filename), filename))) <==>
            Join(tmpRoot, filename) in s.files && !Hidden(Join(tmpRoot, filename))
    ensures r == Sent(Reply(404, Plain("File not found"))) <==> !s.Present(Join(tmpRoot, filename))
    ensures r == Unanswered <==>
            s.Present(Join(tmpRoot, filename)) && (Hidden(Join(tmpRoot, filename)) || DirectoryAt(s, Join(tmpRoot, filename)))
  {
    var path := Join(tmpRoot, filename);
    if !s.Present(path) then Sent(Reply(404, Plain("File not found")))
    else if path in s.files && !Hidden(path) then Sent(Reply(200, Attachment(path, filename)))
    else Unanswered
  }

  /** A file whose name starts with '.' is never sent: the segment route hands
      the refusal to the error handlers, and /file never answers. */
  lemma HiddenFilesRefused(s: WorldState, tmpRoot: string, id: string, name: string)
    requires name != "" && name[0] == '.' && Lacks(name, '/')
    ensures Join(Join(HlsRoot(tmpRoot), id), name) in s.files ==> ServeSegment(s, tmpRoot, id, name) == ErrorHandled(404)
    ensures Join(tmpRoot, name) in s.files ==> ServeFile(s, tmpRoot, name) == Unanswered
  {
    BasenameOfJoin(Join(HlsRoot(tmpRoot), id), name);
    BasenameOfJoin(tmpRoot, name);
  }

  /** The unreserved characters of section 2.3 of RFC 3986: a URL path
      carries them as they are, and percent-decoding leaves them alone. */
  predicate UrlSafe(id: string)
  {
    forall k :: 0 <= k < |id| ==>
      ('a' <= id[k] <= 'z') || ('A' <= id[k] <= 'Z') || ('0' <= id[k] <= '9') || id[k] in "-._~"
  }

  /** The page /play sends loads a URL that routes to the playlist route for
      the same clip, which then sends the very file /play checked, or passes
      the request on when that is a directory. The id is written into the
      page unescaped, so this holds for the ids the URL carries unchanged:
      unreserved characters, and not a dot segment. */
  lemma PlayerLoadsServedPlaylist(s: WorldState, tmpRoot: string, clipId: string)
    requires clipId != "" && clipId != "." && clipId != ".." && UrlSafe(clipId)
    requires Play(s, tmpRoot, clipId).status == 200
    ensures PlaylistRoute(Play(s, tmpRoot, clipId).body.source) == Some(clipId)
    ensures ServeHls(s, tmpRoot, clipId, HlsService.PlaylistName, HlsService.PlaylistName)
            == if PlaylistFile(tmpRoot, clipId) in s.files
               then Sent(Reply(200, FileSent(PlaylistFile(tmpRoot, clipId), MpegUrl)))
               else PassedOn
  {
    PlaylistUrlRoutes(clipId);
    PlaylistNameFolds();
    PlaylistNotHidden(tmpRoot, clipId);
  }

  // ---------------------------------------------------------------- TMP_DIR

  /** At module load the router makes TMP_DIR unless something is already
      there. */
  method EnsureTmpDir(w: World, tmpRoot: string)
    modifies w
    ensures tmpRoot in w.dirs || tmpRoot in w.files
    ensures old(tmpRoot in w.dirs || tmpRoot in w.files) ==> w.State() == old(w.State())
    ensures !old(tmpRoot in w.dirs || tmpRoot in w.files) ==> w.State() == old(w.State()).AfterMakeDir(tmpRoot)
  {
    if !(tmpRoot in w.dirs || tmpRoot in w.files) {
      w.MakeDir(tmpRoot);
    }
  }

  // ---------------------------------------------------------------- clip routes

  /** The state a request leaves and the reply it gets. */
  datatype Served = Served(state: WorldState, reply: Reply)

  /** "clip_" followed by a decimal timestamp holds no separator. */
  lemma ClipNameClean(ts: nat)
    ensures "clip_" + Radix.Decimal(ts) != "" && Lacks("clip_" + Radix.Decimal(ts), '/')
  {
    var d := Radix.Decimal(ts);
    var name := "clip_" + d;
    forall k | 0 <= k < |name| ensures name[k] != '/' {
      if k >= 5 {
        assert name[k] == d[k - 5];
        assert Radix.IsDigit(d[k - 5], 10);
      }
    }
  }

  /** GET /downloadClip against a world s, with the downloads directory, the
      timestamp and the three tool runs given. */
  function DownloadClipRun(s: WorldState, dir: string, url: QueryValue, start: QueryValue, end: QueryValue, ts: nat,
                           probe: ExecOutcome, fetch: ExecOutcome, trim: ExecOutcome): (out: Served)
    // a rejected request never reaches extractSegment
    ensures out.reply.status == 400 <==> ClipGate(url, start, end).Err?
    ensures out.reply.status == 400 ==> out.state == s && out.reply.body == ErrorJson(ClipGate(url, start, end).message)
    // success names the clip, which is on disk
    ensures out.reply.status == 200 ==>
              out.reply.body == ClipSaved(ClipMessage, VideoService.ClipFile(dir, ts)) &&
              out.state.Present(VideoService.ClipFile(dir, ts))
    // an admitted request leaves extractSegment's state, and answers 200 iff it resolved
    ensures ClipGate(url, start, end).Ok? ==>
              var req := ClipGate(url, start, end).value;
              var run := VideoService.ExtractRun(s, dir, req.url, req.start, req.end, ts, probe, fetch, trim);
              && out.state == run.state
              && (out.reply.status == 200 <==> run.result.Ok?)
              && (run.result.Err? ==> out.reply == Reply(500, ErrorJson(run.result.message)))
    ensures out.reply.status in {200, 400, 500}
  {
    match ClipGate(url, start, end)
    case Err(m) => Served(s, Reply(400, ErrorJson(m)))
    case Ok(req) =>
      var run := VideoService.ExtractRun(s, dir, req.url, req.start, req.end, ts, probe, fetch, trim);
      match run.result
      case Ok(file) => Served(run.state, Reply(200, ClipSaved(ClipMessage, file)))
      case Err(m) => Served(run.state, Reply(500, ErrorJson(m)))
  }

  method DownloadClip(w: World, dir: string, url: QueryValue, start: QueryValue, end: QueryValue, ts: nat,
                      probe: ExecOutcome, fetch: ExecOutcome, trim: ExecOutcome)
    returns (reply: Reply)
    modifies w
    ensures Served(w.State(), reply) == DownloadClipRun(old(w.State()), dir, url, start, end, ts, probe, fetch, trim)
  {
    var gate := ClipGate(url, start, end);
    if gate.Err? {
      return Reply(400, ErrorJson(gate.message));
    }
    var req := gate.value;
    var r := VideoService.ExtractSegment(w, dir, req.url, req.start, req.end, ts, probe, fetch, trim);
    if r.Ok? {
      reply := Reply(200, ClipSaved(ClipMessage, r.value));
    } else {
      reply := Reply(500, ErrorJson(r.message));
    }
  }

  /** GET /downloadHlsClip: the clip, then its conversion with convertToHLS's
      default output directory. */
  function DownloadHlsClipRun(s: WorldState, dir: string, url: QueryValue, start: QueryValue, end: QueryValue, ts: nat,
                              probe: ExecOutcome, fetch: ExecOutcome, trim: ExecOutcome, encode: EncodeOutcome)
    : (out: Served)
    ensures out.reply.status == 400 <==> ClipGate(url, start, end).Err?
    ensures out.reply.status == 400 ==> out.state == s && out.reply.body == ErrorJson(ClipGate(url, start, end).message)
    // the reported playlist is tmp/hls/clip_<ts>/playlist.m3u8
    ensures out.reply.status == 200 ==>
              out.reply.body == HlsClipSaved(HlsClipMessage,
                Join(Join(HlsService.DefaultOutputDir, "clip_" + Radix.Decimal(ts)), HlsService.PlaylistName))
    ensures out.reply.status == 200 ==> encode.failure.None? && out.state.Present(VideoService.ClipFile(dir, ts))
    // an admitted request runs extractSegment, then convertToHLS only on the clip it resolved with;
    // it answers 200 iff both succeed, and a 500 carries the first failure's message
    ensures ClipGate(url, start, end).Ok? ==>
              var req := ClipGate(url, start, end).value;
              var run := VideoService.ExtractRun(s, dir, req.url, req.start, req.end, ts, probe, fetch, trim);
              && (run.result.Err? ==> out == Served(run.state, Reply(500, ErrorJson(run.result.message))))
              && (run.result.Ok? ==>
                    var l := HlsService.ConvertLayout(HlsService.DefaultOutputDir, run.result.value);
                    var conv := HlsService.ConvertRun(run.state, HlsService.DefaultOutputDir, l,
                                                      HlsService.HlsJob(run.result.value, l), encode);
                    && out.state == conv.state
                    && (out.reply.status == 200 <==> encode.failure.None?)
                    && (encode.failure.Some? ==> out.reply == Reply(500, ErrorJson(encode.failure.value))))
    ensures out.reply.status in {200, 400, 500}
  {
    match ClipGate(url, start, end)
    case Err(m) => Served(s, Reply(400, ErrorJson(m)))
    case Ok(req) =>
      var run := VideoService.ExtractRun(s, dir, req.url, req.start, req.end, ts, probe, fetch, trim);
      match run.result
      case Err(m) => Served(run.state, Reply(500, ErrorJson(m)))
      case Ok(file) =>
        var l := HlsService.ConvertLayout(HlsService.DefaultOutputDir, file);
        ClipNameClean(ts);
        HlsService.ConvertLayoutOfMp4(HlsService.DefaultOutputDir, dir, "clip_" + Radix.Decimal(ts));
        var conv := HlsService.ConvertRun(run.state, HlsService.DefaultOutputDir, l, HlsService.HlsJob(file, l), encode);
        match conv.result
        case Ok(m3u8) => Served(conv.state, Reply(200, HlsClipSaved(HlsClipMessage, m3u8)))
        case Err(m) => Served(conv.state, Reply(500, ErrorJson(m)))
  }

  method DownloadHlsClip(w: World, dir: string, url: QueryValue, start: QueryValue, end: QueryValue, ts: nat,
                         probe: ExecOutcome, fetch: ExecOutcome, trim: ExecOutcome, encode: EncodeOutcome)
    returns (reply: Reply)
    modifies w
    ensures Served(w.State(), reply) ==
            DownloadHlsClipRun(old(w.State()), dir, url, start, end, ts, probe, fetch, trim, encode)
  {
    var gate := ClipGate(url, start, end);
    if gate.Err? {
      return Reply(400, ErrorJson(gate.message));
    }
    var req := gate.value;
    var r := VideoService.ExtractSegment(w, dir, req.url, req.start, req.end, ts, probe, fetch, trim);
    if r.Err? {
      return Reply(500, ErrorJson(r.message));
    }
    var m3u8 := HlsService.ConvertToHls(w, r.value, HlsService.DefaultOutputDir, encode);
    if m3u8.Ok? {
      reply := Reply(200, HlsClipSaved(HlsClipMessage, m3u8.value));
    } else {
      reply := Reply(500, ErrorJson(m3u8.message));
    }
  }

  // ---------------------------------------------------------------- /stream

  /** GET /stream/:videoId: converts TMP_DIR/<videoId>.mp4 with convertToHLS's
      default output directory. */
  function StreamRun(s: WorldState, tmpRoot: string, videoId: string, encode: EncodeOutcome): (out: Served)
    ensures out.reply.status == 404 <==> !s.Present(Join(tmpRoot, videoId + ".mp4"))
    ensures out.reply.status == 404 ==> out == Served(s, Reply(404, ErrorJson("Video file not found")))
    ensures out.reply.status == 200 <==> s.Present(Join(tmpRoot, videoId + ".mp4")) && encode.failure.None?
    // anything at the path is converted: the state is convertToHLS's, and its failure is a 500
    ensures s.Present(Join(tmpRoot, videoId + ".mp4")) ==>
              var mp4 := Join(tmpRoot, videoId + ".mp4");
              var l := HlsService.ConvertLayout(HlsService.DefaultOutputDir, mp4);
              && out.state == HlsService.ConvertRun(s, HlsService.DefaultOutputDir, l, HlsService.HlsJob(mp4, l), encode).state
              && (encode.failure.Some? ==>
                    out.reply == Reply(500, ErrorDetails("Failed to convert to HLS", encode.failure.value)))
    ensures out.reply.status in {200, 404, 500}
    ensures out.reply.status == 200 ==> out.reply.body.StreamReady? && out.reply.body.playlistUrl == PlaylistUrl(videoId)
    ensures out.reply.status == 200 && videoId != "" && Lacks(videoId, '/') ==>
              out.reply.body.m3u8Path == Join(Join(HlsService.DefaultOutputDir, videoId), HlsService.PlaylistName)
  {
    var mp4 := Join(tmpRoot, videoId + ".mp4");
    if !s.Present(mp4) then Served(s, Reply(404, ErrorJson("Video file not found")))
    else
      var l := HlsService.ConvertLayout(HlsService.DefaultOutputDir, mp4);
      var conv := HlsService.ConvertRun(s, HlsService.DefaultOutputDir, l, HlsService.HlsJob(mp4, l), encode);
      assert videoId != "" && Lacks(videoId, '/') ==>
               l == HlsService.LayoutOf(HlsService.DefaultOutputDir, videoId) by {
        if videoId != "" && Lacks(videoId, '/') {
          HlsService.ConvertLayoutOfMp4(HlsService.DefaultOutputDir, tmpRoot, videoId);
        }
      }
      match conv.result
      case Ok(m3u8) =>
        Served(conv.state, Reply(200, StreamReady("success", "HLS conversion completed", m3u8, PlaylistUrl(videoId))))
      case Err(m) => Served(conv.state, Reply(500, ErrorDetails("Failed to convert to HLS", m)))
  }

  method Stream(w: World, tmpRoot: string, videoId: string, encode: EncodeOutcome) returns (reply: Reply)
    modifies w
    ensures Served(w.State(), reply) == StreamRun(old(w.State()), tmpRoot, videoId, encode)
  {
    var mp4Path := Join(tmpRoot, videoId + ".mp4");
    var present := w.Exists(mp4Path);
    if !present {
      return Reply(404, ErrorJson("Video file not found"));
    }
    var m3u8 := HlsService.ConvertToHls(w, mp4Path, HlsService.DefaultOutputDir, encode);
    if m3u8.Ok? {
      reply := Reply(200, StreamReady("success", "HLS conversion completed", m3u8.value, PlaylistUrl(videoId)));
    } else {
      reply := Reply(500, ErrorDetails("Failed to convert to HLS", m3u8.message));
    }
  }

  /** The playlist /stream reports is written relative to the working
      directory; when TMP_DIR is that directory's tmp, it is the file the
      reported playlist URL serves. The id is the decoded route parameter, so
      only ids of unreserved URL characters other than `.` and `..` come back
      unchanged through the reported URL. */
  lemma StreamPlaylistServed(cwd: string, videoId: string)
    requires videoId != "" && videoId != "." && videoId != ".." && UrlSafe(videoId)
    ensures Join(cwd, Join(Join(HlsService.DefaultOutputDir, videoId), HlsService.PlaylistName))
            == PlaylistFile(Join(cwd, "tmp"), videoId)
    ensures PlaylistRoute(PlaylistUrl(videoId)) == Some(videoId)
  {
    PlaylistUrlRoutes(videoId);
  }

  // ---------------------------------------------------------------- job ids

  /** Date.now().toString(36): lower-case base-36 digits that decode back to
      the timestamp, so distinct timestamps give distinct ids; an id never
      holds a separator or a dot. */
  function JobId(now: nat): (id: string)
    ensures Radix.Canonical(id, 36) && Radix.Parse(id, 36) == now
    ensures id != "" && Lacks(id, '/') && Lacks(id, '.')
  {
    Radix.RenderThenParse(now, 36);
    Radix.Base36(now)
  }

  // ---------------------------------------------------------------- streamed responses

  /** One line of a streamed JSON response. */
  datatype StatusEvent =
    | Started(id: string)
    | Done(filename: string, size: nat)
    | Failed(message: string)
    | Converted(id: string, playlistUrl: string, m3u8Path: string)

  /** What the client has received: the status, a JSON body sent in one go,
      the streamed lines, and whether the response was ended. */
  datatype Streamed = Streamed(status: nat, body: Option<Body>, events: seq<StatusEvent>, ended: bool)

  const Fresh := Streamed(200, None, [], false)

  /** An Express response written step by step. */
  class Response {
    var status: nat
    var body: Option<Body>
    var events: seq<StatusEvent>
    var ended: bool

    function Snapshot(): Streamed
      reads this
    {
      Streamed(status, body, events, ended)
    }

    constructor ()
      ensures Snapshot() == Fresh
    {
      status, body, events, ended := 200, None, [], false;
    }

    /** res.status(code).json(b). */
    method Send(code: nat, b: Body)
      modifies this
      ensures Snapshot() == old(Snapshot()).(status := code, body := Some(b), ended := true)
    {
      status, body, ended := code, Some(b), true;
    }

    /** res.write(JSON.stringify(e) + "\n"). */
    method Write(e: StatusEvent)
      modifies this
      ensures Snapshot() == old(Snapshot()).(events := old(events) + [e])
    {
      events := events + [e];
    }

    /** res.end(). */
    method End()
      modifies this
      ensures Snapshot() == old(Snapshot()).(ended := true)
    {
      ended := true;
    }
  }

  /** A job stream as the client should see it: one start line for the job,
      exactly one terminal line, then the end of the response. */
  predicate Settled(out: Streamed, id: string)
  {
    && out.status == 200 && out.body.None? && out.ended
    && |out.events| == 2 && out.events[0] == Started(id) && !out.events[1].Started?
  }

  // ---------------------------------------------------------------- /download

  /** A file of TMP_DIR as readdirSync lists it, with the size statSync gives. */
  datatype Entry = Entry(name: string, size: nat)

  function DownloadArgs(tmpRoot: string, id: string, url: string): seq<string>
  {
    [ "-f", "bestvideo[ext=mp4]+bestaudio[ext=m4a]/mp4", "--merge-output-format", "mp4",
      "-o", Join(tmpRoot, id + ".%(ext)s"), url ]
  }

  /** The listing filtered to the names starting with id, in listing order. */
  function Matching(listing: seq<Entry>, id: string): (r: seq<Entry>)
    ensures forall e :: e in r <==> e in listing && StartsWith(e.name, id)
  {
    if listing == [] then []
    else if StartsWith(listing[0].name, id) then [listing[0]] + Matching(listing[1..], id)
    else Matching(listing[1..], id)
  }

  /** The filtered listing starts with the first matching entry. */
  lemma {:induction false} MatchingStartsAtFirst(listing: seq<Entry>, id: string)
    requires Matching(listing, id) != []
    ensures exists k :: && 0 <= k < |listing| && listing[k] == Matching(listing, id)[0]
                        && forall j :: 0 <= j < k ==> !StartsWith(listing[j].name, id)
  {
    if !StartsWith(listing[0].name, id) {
      MatchingStartsAtFirst(listing[1..], id);
      var k :| && 0 <= k < |listing[1..]| && listing[1..][k] == Matching(listing[1..], id)[0]
               && forall j :: 0 <= j < k ==> !StartsWith(listing[1..][j].name, id);
      assert listing[k + 1] == Matching(listing, id)[0];
      forall j | 0 <= j < k + 1 ensures !StartsWith(listing[j].name, id) {
        if j > 0 { assert listing[j] == listing[1..][j - 1]; }
      }
    }
  }

  /** files[0] of the filtered listing, if any. */
  function FirstMatch(listing: seq<Entry>, id: string): (r: Option<Entry>)
    ensures r.None? <==> forall k :: 0 <= k < |listing| ==> !StartsWith(listing[k].name, id)
    ensures r.Some? ==> exists k :: && 0 <= k < |listing| && listing[k] == r.value && StartsWith(r.value.name, id)
                                    && forall j :: 0 <= j < k ==> !StartsWith(listing[j].name, id)
  {
    var m := Matching(listing, id);
    if m == [] then None
    else
      MatchingStartsAtFirst(listing, id);
      assert m[0] in m;
      Some(m[0])
  }

  /** The line the close handler writes. */
  function CloseEvent(status: ExitStatus, listing: seq<Entry>, id: string): (e: StatusEvent)
    ensures e.Done? <==> status == Code(0) && exists k :: 0 <= k < |listing| && StartsWith(listing[k].name, id)
    ensures e.Done? ==> exists k :: && 0 <= k < |listing| && e == Done(listing[k].name, listing[k].size)
                                    && StartsWith(listing[k].name, id)
                                    && forall j :: 0 <= j < k ==> !StartsWith(listing[j].name, id)
    ensures status == Code(0) && !e.Done? ==> e == Failed("no file")
    ensures status != Code(0) ==> e == Failed("yt-dlp exited with code " + ExitText(status))
  {
    if status != Code(0) then Failed("yt-dlp exited with code " + ExitText(status))
    else
      match FirstMatch(listing, id)
      case Some(f) => Done(f.name, f.size)
      case None => Failed("no file")
  }

  /** The stream of an admitted /download job as the code is written. A
      failure to spawn yt-dlp emits 'error' on a child with no listener for
      it, which takes the server down: the client has the start line and
      nothing more. */
  function DownloadStream(id: string, outcome: SpawnOutcome, listing: seq<Entry>): (out: Streamed)
    ensures outcome.Closed? ==> Settled(out, id) && out.events[1] == CloseEvent(outcome.status, listing, id)
    ensures outcome.SpawnError? ==> out == Streamed(200, None, [Started(id)], false)
  {
    match outcome
    case SpawnError(_) => Streamed(200, None, [Started(id)], false)
    case Closed(status, _) => Streamed(200, None, [Started(id), CloseEvent(status, listing, id)], true)
  }

  /** A spawn failure leaves the client's stream open with no terminal line. */
  lemma SpawnFailureBreaksProtocol(id: string, message: string, listing: seq<Entry>)
    ensures !Settled(DownloadStream(id, SpawnError(message), listing), id)
  {
  }

  /** The stream with an 'error' listener that reports the failure and ends
      the response, as /direct's job does: every admitted job settles. */
  function DownloadStreamCorrected(id: string, outcome: SpawnOutcome, listing: seq<Entry>): (out: Streamed)
    ensures Settled(out, id)
    ensures outcome.Closed? ==> out == DownloadStream(id, outcome, listing)
    ensures outcome.SpawnError? ==> out.events[1] == Failed(outcome.message)
  {
    match outcome
    case SpawnError(m) => Streamed(200, None, [Started(id), Failed(m)], true)
    case Closed(_, _) => DownloadStream(id, outcome, listing)
  }

  /** lastLine after the stdout chunks: the last chunk, trimmed. It is only
      kept, never sent. */
  method LastLine(chunks: seq<string>) returns (line: string)
    ensures chunks == [] ==> line == ""
    ensures chunks != [] ==> line == Trim(chunks[|chunks| - 1])
  {
    line := "";
    for i := 0 to |chunks|
      invariant i == 0 ==> line == ""
      invariant i > 0 ==> line == Trim(chunks[i - 1])
    {
      line := Trim(chunks[i]);
    }
  }

  /** GET /download?url=... as written: the yt-dlp child, its stdout chunks,
      how it ends and the TMP_DIR listing after it closes are given. */
  method Download(w: World, res: Response, url: Option<string>, host: Option<string>, tmpRoot: string, now: nat,
                  chunks: seq<string>, outcome: SpawnOutcome, listing: seq<Entry>)
    modifies w, res
    requires res.Snapshot() == Fresh
    ensures !JobGate(url, host) ==>
              res.Snapshot() == Streamed(400, Some(ErrorJson(InvalidUrl)), [], true) && w.State() == old(w.State())
    ensures JobGate(url, host) ==>
              && res.Snapshot() == DownloadStream(JobId(now), outcome, listing)
              && w.State() == old(w.State()).AfterExec("yt-dlp", DownloadArgs(tmpRoot, JobId(now), url.value),
                                                       Creates(outcome))
  {
    if !JobGate(url, host) {
      res.Send(400, ErrorJson(InvalidUrl));
      return;
    }
    var id := JobId(now);
    res.Write(Started(id));
    w.Exec("yt-dlp", DownloadArgs(tmpRoot, id, url.value), Creates(outcome));
    var lastLine := LastLine(chunks);
    if outcome.SpawnError? {
      // the unhandled 'error' event ends the process here
      return;
    }
    var e := CloseEvent(outcome.status, listing, id);
    res.Write(e);
    res.End();
  }

  // ---------------------------------------------------------------- /direct

  /** The terminal line of /direct for the job's outcome. */
  function DirectEvent(id: string, r: Result<string>): (e: StatusEvent)
    ensures r.Ok? ==> e == Converted(id, PlaylistUrl(id), r.value)
    ensures r.Err? ==> e == Failed(r.message)
  {
    match r
    case Ok(m3u8) => Converted(id, PlaylistUrl(id), m3u8)
    case Err(m) => Failed(m)
  }

  /** GET /direct?url=...: downloadAndConvertToHLS with its default output
      directory, reported as a start line and one terminal line. */
  method Direct(w: World, res: Response, url: Option<string>, host: Option<string>, now: nat,
                staticPath: Option<string>, ytdlp: SpawnOutcome, ffmpeg: SpawnOutcome, refused: bool)
    modifies w, res
    requires res.Snapshot() == Fresh
    ensures !JobGate(url, host) ==>
              res.Snapshot() == Streamed(400, Some(ErrorJson(InvalidUrl)), [], true) && w.State() == old(w.State())
    ensures JobGate(url, host) ==>
              var id := JobId(now);
              var run := HlsService.DirectRun(old(w.State()), url.value, id, HlsService.DefaultOutputDir,
                                              staticPath, ytdlp, ffmpeg, refused);
              && w.State() == run.state
              && res.Snapshot() == Streamed(200, None, [Started(id), DirectEvent(id, run.result)], true)
  {
    if !JobGate(url, host) {
      res.Send(400, ErrorJson(InvalidUrl));
      return;
    }
    var id := JobId(now);
    res.Write(Started(id));
    assert res.Snapshot() == Streamed(200, None, [Started(id)], false);
    var r := HlsService.DownloadAndConvertToHls(w, url.value, id, HlsService.DefaultOutputDir, staticPath, ytdlp, ffmpeg, refused);
    res.Write(DirectEvent(id, r));
    res.End();
  }

  /** The first /direct job makes tmp/hls as well as the job's directory, so
      afterwards /file/hls, with TMP_DIR the working directory's tmp, finds a
      directory and never answers. */
  lemma DirectMakesHlsRoot(s: WorldState, url: string, id: string, staticPath: Option<string>,
                           ytdlp: SpawnOutcome, ffmpeg: SpawnOutcome, refused: bool)
    requires HlsService.DefaultOutputDir !in s.files
    ensures var run := HlsService.DirectRun(s, url, id, HlsService.DefaultOutputDir, staticPath, ytdlp, ffmpeg, refused);
            && HlsService.DefaultOutputDir in run.state.dirs
            && (HlsService.DefaultOutputDir !in run.state.files ==> ServeFile(run.state, "tmp", "hls") == Unanswered)
  {
    var h := "hls";
    assert h[0] == 'h' && Lacks(h, '/');
    BasenameOfJoin("tmp", h);
  }

  /** Every admitted /direct job settles, and a successful one reports a
      playlist URL that routes to its id and a playlist path that, resolved
      against the working directory, is the file that route sends. */
  lemma DirectSettles(s: WorldState, cwd: string, url: string, now: nat, staticPath: Option<string>,
                      ytdlp: SpawnOutcome, ffmpeg: SpawnOutcome, refused: bool)
    ensures var id := JobId(now);
            var run := HlsService.DirectRun(s, url, id, HlsService.DefaultOutputDir, staticPath, ytdlp, ffmpeg, refused);
            var e := DirectEvent(id, run.result);
            && Settled(Streamed(200, None, [Started(id), e], true), id)
            && (e.Converted? ==>
                  && PlaylistRoute(e.playlistUrl) == Some(id)
                  && Join(cwd, e.m3u8Path) == PlaylistFile(Join(cwd, "tmp"), id))
  {
    PlaylistUrlRoutes(JobId(now));
  }
}
