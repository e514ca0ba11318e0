/** The abstract environment a job runs against: which files and directories
    exist, and the trace of effects the service has performed. External tools
    are never run: what a run does (its exit status, its stderr, the files it
    leaves behind) is an input to the model. */
module Env {
  import opened Wrappers
  import Radix

  /** How a child process closed: with an exit code, or killed by a signal, in
      which case Node reports the code as null. */
  datatype ExitStatus = Code(n: int) | Killed

  /** The status as a template literal or string concatenation prints it. */
  function ExitText(e: ExitStatus): (s: string)
    ensures s != []
  {
    match e
    case Code(n) => Radix.IntText(n)
    case Killed => "null"
  }

  /** A run of execFile: the error's message when Node reports an error
      (non-zero exit, missing binary), both captured streams, and the files the
      run leaves behind. */
  datatype ExecOutcome = ExecOutcome(failure: Option<string>, stdout: string, stderr: string, creates: set<string>)

  /** A run of spawn: either the process starts and later closes, or starting it
      fails and the child emits 'error'. */
  datatype SpawnOutcome = Closed(status: ExitStatus, creates: set<string>) | SpawnError(message: string)

  /** A fluent-ffmpeg run: 'end', or 'error' with its message; either way the
      files the encoder leaves behind. */
  datatype EncodeOutcome = EncodeOutcome(failure: Option<string>, creates: set<string>)

  /** What the service hands fluent-ffmpeg: input, codecs, optional bitrates and
      size, the list given to outputOptions, and the output file. */
  datatype EncoderJob = EncoderJob(
    input: string,
    videoCodec: string,
    audioCodec: string,
    videoBitrate: Option<string>,
    audioBitrate: Option<string>,
    size: Option<string>,
    outputOptions: seq<string>,
    output: string)

  /** How ffmpeg reads an argument vector of flag/value pairs: the value that
      follows the first occurrence of flag in a flag position. */
  function OptionValue(args: seq<string>, flag: string): Option<string>
  {
    OptionValueFrom(args, flag, 0)
  }

  /** The same lookup, starting at flag position k. */
  function OptionValueFrom(args: seq<string>, flag: string, k: nat): Option<string>
    decreases |args| - k
  {
    if k + 1 >= |args| then None
    else if args[k] == flag then Some(args[k + 1])
    else OptionValueFrom(args, flag, k + 2)
  }

  /** Reading a vector from an even position k on gives the same value when
      no flag before k is the one sought. */
  lemma {:induction false} SkipTo(args: seq<string>, flag: string, k: nat)
    requires k % 2 == 0 && k <= |args|
    requires forall j | 0 <= j < k && j % 2 == 0 :: args[j] != flag
    ensures OptionValue(args, flag) == OptionValueFrom(args, flag, k)
    decreases k
  {
    if k > 0 {
      SkipTo(args, flag, k - 2);
    }
  }

  /** The files a spawned run leaves behind: none when it never started. */
  function Creates(o: SpawnOutcome): set<string>
  {
    match o
    case Closed(_, created) => created
    case SpawnError(_) => {}
  }

  /** An effect on the outside world, in the order it is performed. */
  datatype Effect =
    | MakeDir(path: string)
    | Exec(program: string, args: seq<string>)
    | Encode(job: EncoderJob)
    | Unlink(path: string)

  datatype WorldState = WorldState(files: set<string>, dirs: set<string>, trace: seq<Effect>) {

    /** fs.existsSync and fs.access: something, a file or a directory, is at path. */
    predicate Present(path: string)
    {
      path in files || path in dirs
    }

    /** fs.mkdir(path, { recursive: true }): path and every missing ancestor. */
    function AfterMakeDir(path: string): (s: WorldState)
      ensures s.files == files && s.dirs == dirs + Ancestry(path) && s.trace == trace + [MakeDir(path)]
    {
      this.(dirs := dirs + Ancestry(path), trace := trace + [MakeDir(path)])
    }

    /** Starting a program; the files it leaves behind appear. */
    function AfterExec(program: string, args: seq<string>, creates: set<string>): (s: WorldState)
      ensures s.files == files + creates && s.dirs == dirs
      ensures s.trace == trace + [Exec(program, args)]
    {
      this.(files := files + creates, trace := trace + [Exec(program, args)])
    }

    /** Running an encoder job; the files it leaves behind appear. */
    function AfterEncode(job: EncoderJob, creates: set<string>): (s: WorldState)
      ensures s.files == files + creates && s.dirs == dirs
      ensures s.trace == trace + [Encode(job)]
    {
      this.(files := files + creates, trace := trace + [Encode(job)])
    }

    /** fs.unlink(path): the file is gone afterwards unless the system refused
        the deletion (EACCES, EPERM, EBUSY), in which case nothing changes but
        the log. */
    function AfterUnlink(path: string, refused: bool): (s: WorldState)
      ensures !refused ==> path !in s.files
      ensures s.files == files - (if refused then {} else {path}) && s.dirs == dirs
      ensures s.trace == trace + [Unlink(path)]
    {
      this.(files := files - (if refused then {} else {path}), trace := trace + [Unlink(path)])
    }
  }

  /** The directories a recursive mkdir of path leaves in place: path itself
      and every proper prefix of it that ends before a separator (the root
      excepted). */
  function Ancestry(path: string): (r: set<string>)
    ensures path in r
  {
    {path} + set k | 0 < k < |path| && path[k] == '/' :: path[..k]
  }

  /** Exactly path and its proper prefixes that end before a separator are
      in its ancestry. */
  lemma AncestryMeaning(path: string, d: string)
    ensures d in Ancestry(path) <==> d == path || (0 < |d| < |path| && path[|d|] == '/' && d == path[..|d|])
  {
    if d != path && 0 < |d| < |path| && path[|d|] == '/' && d == path[..|d|] {
      var k := |d|;
      assert path[..k] in (set k | 0 < k < |path| && path[k] == '/' :: path[..k]);
    }
  }

  /** The state a job leaves and the way its promise settled. */
  datatype Run<T> = Run(state: WorldState, result: Result<T>)

  /** The effects a run appended to the trace it started from. */
  function Appended(before: WorldState, after: WorldState): seq<Effect>
    requires |before.trace| <= |after.trace|
  {
    after.trace[|before.trace|..]
  }

  /** The file system and the effect log, updated in place by each operation. */
  class World {
    var files: set<string>
    var dirs: set<string>
    var trace: seq<Effect>

    function State(): WorldState
      reads this
    {
      WorldState(files, dirs, trace)
    }

    constructor (initial: WorldState)
      ensures State() == initial
    {
      files, dirs, trace := initial.files, initial.dirs, initial.trace;
    }

    method MakeDir(path: string)
      modifies this
      ensures State() == old(State()).AfterMakeDir(path)
    {
      dirs := dirs + Ancestry(path);
      trace := trace + [Effect.MakeDir(path)];
    }

    method Exec(program: string, args: seq<string>, creates: set<string>)
      modifies this
      ensures State() == old(State()).AfterExec(program, args, creates)
    {
      files := files + creates;
      trace := trace + [Effect.Exec(program, args)];
    }

    method Encode(job: EncoderJob, creates: set<string>)
      modifies this
      ensures State() == old(State()).AfterEncode(job, creates)
    {
      files := files + creates;
      trace := trace + [Effect.Encode(job)];
    }

    /** fs.unlink: reports whether a file was deleted; it fails when none was
        there or when the deletion is refused. */
    method Unlink(path: string, refused: bool) returns (deleted: bool)
      modifies this
      ensures deleted == (path in old(files) && !refused)
      ensures State() == old(State()).AfterUnlink(path, refused)
    {
      deleted := path in files && !refused;
      if !refused {
        files := files - {path};
      }
      trace := trace + [Effect.Unlink(path)];
    }

    /** fs.existsSync / fs.access: a read, which changes nothing; a directory
        counts as much as a file. */
    method Exists(path: string) returns (present: bool)
      ensures present == State().Present(path)
    {
      present := path in files || path in dirs;
    }
  }
}
