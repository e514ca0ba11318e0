/** src/video/video.service.ts: execFileAsync, the yt-dlp probe and
    extractSegment, which downloads a whole video and cuts a clip out of it. */
module VideoService {
  import opened Wrappers
  import opened Env
  import opened NodePath
  import Radix

  datatype Streams = Streams(stdout: string, stderr: string)

  /** execFileAsync: a run that Node reports as failed rejects with its stderr
      when that is not empty and with the error's own message otherwise; a
      successful run resolves with both streams. */
  function ExecFileResult(o: ExecOutcome): (r: Result<Streams>)
    ensures r.Ok? <==> o.failure.None?
    ensures r.Ok? ==> r.value == Streams(o.stdout, o.stderr)
    ensures r.Err? && o.stderr != "" ==> r.message == o.stderr
    ensures r.Err? && o.stderr == "" ==> r.message == o.failure.value
  {
    match o.failure
    case None => Ok(Streams(o.stdout, o.stderr))
    case Some(m) => Err(if o.stderr != "" then o.stderr else m)
  }

  const YtDlp := "yt-dlp"
  const Ffmpeg := "ffmpeg"
  const ProbeArgs: seq<string> := ["--version"]
  const NotInstalled := "yt-dlp is not installed"
  const NotCreated := "Output file was not created"

  /** The full-length download, named by the job's timestamp. */
  function TempFile(dir: string, ts: nat): string
  {
    Join(dir, "temp_" + Radix.Decimal(ts) + ".mp4")
  }

  /** The clip, named by the same timestamp. */
  function ClipFile(dir: string, ts: nat): string
  {
    Join(dir, "clip_" + Radix.Decimal(ts) + ".mp4")
  }

  /** The temp file and the clip never coincide, and distinct timestamps give
      distinct file names. */
  lemma FileNamesDistinct(dir: string, a: nat, b: nat)
    ensures TempFile(dir, a) != ClipFile(dir, b)
    ensures a != b ==> TempFile(dir, a) != TempFile(dir, b) && ClipFile(dir, a) != ClipFile(dir, b)
  {
    var n := |dir| + 1;
    assert TempFile(dir, a)[n] == 't' && ClipFile(dir, b)[n] == 'c';
    if a != b {
      if TempFile(dir, a) == TempFile(dir, b) {
        NameCarriesNumber(dir, "temp_", a, b);
      }
      if ClipFile(dir, a) == ClipFile(dir, b) {
        NameCarriesNumber(dir, "clip_", a, b);
      }
    }
  }

  lemma NameCarriesNumber(dir: string, prefix: string, a: nat, b: nat)
    requires Join(dir, prefix + Radix.Decimal(a) + ".mp4") == Join(dir, prefix + Radix.Decimal(b) + ".mp4")
    ensures a == b
  {
    var da, db := Radix.Decimal(a), Radix.Decimal(b);
    var n := |dir| + 1 + |prefix|;
    var p := Join(dir, prefix + da + ".mp4");
    assert |da| == |db|;
    assert p[n..n + |da|] == da;
    assert Join(dir, prefix + db + ".mp4")[n..n + |db|] == db;
    Radix.RenderInjective(a, b, 10);
  }

  function FetchArgs(url: string, temp: string): seq<string>
  {
    ["-f", "bestvideo+bestaudio/best", "--merge-output-format", "mp4", "-o", temp, url]
  }

  /** Stream-copy trim; start and end go to ffmpeg exactly as the client sent them. */
  function TrimArgs(start: string, end: string, temp: string, output: string): seq<string>
  {
    ["-ss", start, "-to", end, "-i", temp, "-c", "copy", "-avoid_negative_ts", "make_zero", "-y", output]
  }

  /** The effects of extractSegment in the order it performs them: probe,
      directory, download, trim. */
  function Steps(dir: string, url: string, start: string, end: string, ts: nat): seq<Effect>
  {
    [ Exec(YtDlp, ProbeArgs),
      MakeDir(dir),
      Exec(YtDlp, FetchArgs(url, TempFile(dir, ts))),
      Exec(Ffmpeg, TrimArgs(start, end, TempFile(dir, ts), ClipFile(dir, ts))) ]
  }

  /** extractSegment against a world s, given how each of the three tool runs
      goes. The steps run strictly in order and a failed step ends the job. */
  function ExtractRun(s: WorldState, dir: string, url: string, start: string, end: string, ts: nat,
                      probe: ExecOutcome, fetch: ExecOutcome, trim: ExecOutcome): (run: Run<string>)
    ensures |s.trace| < |run.state.trace| <= |s.trace| + 4
    ensures Appended(s, run.state) == Steps(dir, url, start, end, ts)[..|run.state.trace| - |s.trace|]
    // a missing yt-dlp is reported before the directory is made or anything is downloaded
    ensures ExecFileResult(probe).Err? ==>
              run.result == Err(NotInstalled) && Appended(s, run.state) == [Exec(YtDlp, ProbeArgs)]
    ensures ExecFileResult(probe).Ok? && ExecFileResult(fetch).Err? ==>
              run.result == Err(ExecFileResult(fetch).message) && |Appended(s, run.state)| == 3
    ensures ExecFileResult(probe).Ok? && ExecFileResult(fetch).Ok? ==> |Appended(s, run.state)| == 4
    ensures ExecFileResult(probe).Ok? && ExecFileResult(fetch).Ok? && ExecFileResult(trim).Err? ==>
              run.result == Err(ExecFileResult(trim).message)
    // the clip is looked up in what the three runs left behind
    ensures run.state.files == s.files + probe.creates
                               + (if ExecFileResult(probe).Ok? then fetch.creates else {})
                               + (if ExecFileResult(probe).Ok? && ExecFileResult(fetch).Ok? then trim.creates else {})
    ensures run.state.dirs == s.dirs + (if ExecFileResult(probe).Ok? then Ancestry(dir) else {})
    ensures ExecFileResult(probe).Ok? && ExecFileResult(fetch).Ok? && ExecFileResult(trim).Ok? ==>
              run.result == (if run.state.Present(ClipFile(dir, ts)) then Ok(ClipFile(dir, ts)) else Err(NotCreated))
    ensures run.result.Ok? ==> run.result.value == ClipFile(dir, ts) && run.state.Present(run.result.value)
    // nothing is ever deleted, the full-length download included
    ensures s.files <= run.state.files
    ensures forall e :: e in Appended(s, run.state) ==> !e.Unlink?
  {
    var steps := Steps(dir, url, start, end, ts);
    var s1 := s.AfterExec(YtDlp, ProbeArgs, probe.creates);
    if ExecFileResult(probe).Err? then
      Run(s1, Err(NotInstalled))
    else
      var s3 := s1.AfterMakeDir(dir).AfterExec(YtDlp, steps[2].args, fetch.creates);
      if ExecFileResult(fetch).Err? then
        Run(s3, Err(ExecFileResult(fetch).message))
      else
        var s4 := s3.AfterExec(Ffmpeg, steps[3].args, trim.creates);
        if ExecFileResult(trim).Err? then
          Run(s4, Err(ExecFileResult(trim).message))
        else if s4.Present(ClipFile(dir, ts)) then
          Run(s4, Ok(ClipFile(dir, ts)))
        else
          Run(s4, Err(NotCreated))
  }

  /** checkYtDlp: runs `yt-dlp --version` and reports whether it succeeded. */
  method CheckYtDlp(w: World, probe: ExecOutcome) returns (installed: bool)
    modifies w
    ensures installed == ExecFileResult(probe).Ok?
    ensures w.State() == old(w.State()).AfterExec(YtDlp, ProbeArgs, probe.creates)
  {
    w.Exec(YtDlp, ProbeArgs, probe.creates);
    installed := ExecFileResult(probe).Ok?;
  }

  /** extractSegment(url, start, end), with the downloads directory and the
      timestamp given. */
  method ExtractSegment(w: World, dir: string, url: string, start: string, end: string, ts: nat,
                        probe: ExecOutcome, fetch: ExecOutcome, trim: ExecOutcome)
    returns (r: Result<string>)
    modifies w
    ensures Run(w.State(), r) == ExtractRun(old(w.State()), dir, url, start, end, ts, probe, fetch, trim)
  {
    var installed := CheckYtDlp(w, probe);
    if !installed {
      return Err(NotInstalled);
    }
    w.MakeDir(dir);
    var tempFile, outputFile := TempFile(dir, ts), ClipFile(dir, ts);
    w.Exec(YtDlp, FetchArgs(url, tempFile), fetch.creates);
    var fetched := ExecFileResult(fetch);
    if fetched.Err? {
      return Err(fetched.message);
    }
    w.Exec(Ffmpeg, TrimArgs(start, end, tempFile, outputFile), trim.creates);
    var trimmed := ExecFileResult(trim);
    if trimmed.Err? {
      return Err(trimmed.message);
    }
    var created := w.Exists(outputFile);
    if !created {
      return Err(NotCreated);
    }
    return Ok(outputFile);
  }
}
