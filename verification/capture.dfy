/**
 One capture attempt, as `record_for_duration` prepares it: the output file
 name taken from the clock at start, and the fixed six-word ffmpeg command line.
 */
module Capture {
  import opened Wrappers
  import opened Decimal
  import opened Timestamp

  /** The `attempt_type` label; it only reaches console messages. */
  datatype Kind = Full | Retry

  /** The `attempt_type` text of a kind; the two kinds have distinct labels. */
  function Label(k: Kind): (l: string)
    ensures l == "full" <==> k == Full
    ensures l == "retry" <==> k == Retry
  {
    match k
    case Full => "full"
    case Retry => "retry"
  }

  /** How the external capture process ended, as the caller sees it. */
  datatype Outcome =
    | Completed      // exit status 0
    | NonZeroExit    // `CalledProcessError`
    | Raised         // any other exception, e.g. the ffmpeg binary is missing

  /** One capture: what it records, for how long, and the clock reading at its start. */
  datatype Attempt = Attempt(url: string, duration: int, kind: Kind, startedAt: DateTime)

  /** `[ffmpeg, "-i", url, "-t", str(duration), filename]`, the file named from the start reading. */
  function CommandLine(ffmpeg: string, a: Attempt): (argv: seq<string>)
    requires Valid(a.startedAt)
    ensures |argv| == 6 && argv[2] == a.url && argv[|argv| - 1] == FileName(a.startedAt)
    ensures ParseInt(argv[4]) == Some(a.duration)
    ensures ParseFileName(argv[5]) == Some(WholeSecond(a.startedAt))
  {
    var duration := IntToString(a.duration);
    var file := FileName(a.startedAt);
    IntToStringRoundTrip(a.duration);
    ParseFileNameRoundTrip(a.startedAt);
    [ffmpeg, "-i", a.url, "-t", duration, file]
  }

  /** Reads an ffmpeg command line back into the url, duration and output file it asks for. */
  function ParseCommandLine(ffmpeg: string, argv: seq<string>): (r: Option<(string, int, string)>)
  {
    if |argv| == 6 && argv[0] == ffmpeg && argv[1] == "-i" && argv[3] == "-t"
       && ParseInt(argv[4]).Some?
    then Some((argv[2], ParseInt(argv[4]).value, argv[5]))
    else None
  }

  /**
   The command line has six words: the input url at index 2, the duration's
   decimal text at 4, and last the file whose name gives back the start second.
   */
  lemma CommandLineRoundTrip(ffmpeg: string, a: Attempt)
    requires Valid(a.startedAt)
    ensures |CommandLine(ffmpeg, a)| == 6
    ensures ParseCommandLine(ffmpeg, CommandLine(ffmpeg, a))
         == Some((a.url, a.duration, FileName(a.startedAt)))
    ensures ParseFileName(CommandLine(ffmpeg, a)[5]) == Some(WholeSecond(a.startedAt))
  {
    IntToStringRoundTrip(a.duration);
    ParseFileNameRoundTrip(a.startedAt);
  }

  /** Every command line whose words parse is exactly the one built for the attempt they describe. */
  lemma CommandLineOfParsed(ffmpeg: string, argv: seq<string>, kind: Kind)
    requires ParseCommandLine(ffmpeg, argv).Some?
    requires ParseFileName(argv[5]).Some?
    ensures var (url, duration, _) := ParseCommandLine(ffmpeg, argv).value;
      CommandLine(ffmpeg, Attempt(url, duration, kind, ParseFileName(argv[5]).value)) == argv
  {
    ParseIntCanonical(argv[4]);
    FileNameOfParsed(argv[5]);
  }
}
