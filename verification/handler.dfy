/** `post_convert`, the `POST /convert` handler: it validates the JSON body
    in a fixed order, builds the converter command, and answers according
    to the converter's exit code. The job id, the result of fetching or
    decoding the input, the exit code and the converted text come from the
    outside world and are parameters here. */
module Handler {
  import opened Wrappers
  import opened PyValue
  import opened Strings
  import Decimal
  import Palette
  import Command
  import Jobs
  import Invocation

  /** What the handler gives back: a response, or an exception that
      escapes it (the framework then answers on its own). */
  datatype Outcome =
    | Reply(status: nat, body: string, contentType: Option<string>)
    | Crash

  const UrlAndData: string := "url and data passed in json"
  const WidthNotInt: string := "width is not an integer"
  const HeightNotInt: string := "height is not an integer"
  const PaletteInvalid: string := "palette is invalid!"
  const PaletteAndBuiltin: string := "cc-palette and palette passed"
  const FetchFailed: string := "failed parsing data/url"
  const ExitPrefix: string := "sanjuuni exited with code "
  const LuaType: string := "text/x-lua"

  function BadRequest(message: string): Outcome
  {
    Reply(400, message, None)
  }

  /** Where the input bytes come from. */
  datatype Source = FromUrl | FromData | NoSource

  /** A request that passed validation: the command line to run and where
      its input comes from. */
  datatype Job = Job(cmd: string, source: Source)

  /** What the outside world contributes to one request: the id `gen_id`
      drew, whether fetching the URL or decoding the base64 data succeeded,
      the converter's exit code and the text it wrote. */
  datatype World = World(jobId: string, fetched: bool, exitCode: int, converted: string)

  /** The options read from the body with `body.get`, with the handler's
      defaults; they are passed to the builder as they are. */
  function OptionsOf(body: Body): Command.Options
  {
    Command.Options(
      Get(body, "binary", Bool(false)),
      Get(body, "cc-palette", Bool(false)),
      Get(body, "dithering", Str("none")),
      Get(body, "width", Null),
      Get(body, "height", Null),
      Get(body, "format", Str("blit")))
  }

  /** The `palette` entry, `None` when missing. */
  function PaletteOf(body: Body): Value
  {
    Get(body, "palette", Null)
  }

  /** A `palette` entry the handler lets through: none, or a string that
      matches the pattern while the built-in palette is not requested. */
  predicate PaletteAllowed(body: Body)
  {
    match PaletteOf(body)
    case Null => true
    case Str(p) => Palette.Matches(p) && !Truthy(OptionsOf(body).ccPal)
    case _ => false
  }

  /** A body whose options are all acceptable, stated field by field. */
  predicate WellFormed(body: Body)
  {
    var o := OptionsOf(body);
    && !("url" in body && "data" in body)
    && IsIntOrNone(o.width)
    && IsIntOrNone(o.height)
    && PaletteAllowed(body)
    && Command.InList(o.dithering, Command.Ditherings)
    && Command.InList(o.output, Command.Outputs)
  }

  /** The body names where the input comes from. */
  predicate HasSource(body: Body)
  {
    "url" in body || "data" in body
  }

  /** The texts of the 400 answers. */
  const BadRequestBodies: set<string> := {
    UrlAndData, WidthNotInt, HeightNotInt, PaletteInvalid, PaletteAndBuiltin,
    Command.DitheringError, Command.OutputError, FetchFailed}

  /** The size checks passed and no body names both sources. */
  predicate PastSizeChecks(body: Body)
  {
    && !("url" in body && "data" in body)
    && IsIntOrNone(OptionsOf(body).width)
    && IsIntOrNone(OptionsOf(body).height)
  }

  /** The checks before the command is built, in the handler's order; the
      first one that fails decides the answer. */
  function Prepare(body: Body, id: string): (r: Result<Job, Outcome>)
    ensures r.Success? <==> WellFormed(body)
    ensures r.Success? ==> (r.value.source == NoSource <==> !HasSource(body))
    ensures r == Failure(Crash) <==> PastSizeChecks(body) && !PaletteOf(body).Null? && !PaletteOf(body).Str?
    ensures r.Failure? && r.error.Reply?
        ==> r.error.status == 400 && r.error.contentType == None && r.error.body in BadRequestBodies
    // The first failing check decides the answer.
    ensures "url" in body && "data" in body ==> r == Failure(BadRequest(UrlAndData))
    ensures !("url" in body && "data" in body) && !IsIntOrNone(OptionsOf(body).width)
        ==> r == Failure(BadRequest(WidthNotInt))
    ensures !("url" in body && "data" in body) && IsIntOrNone(OptionsOf(body).width)
            && !IsIntOrNone(OptionsOf(body).height)
        ==> r == Failure(BadRequest(HeightNotInt))
    ensures PastSizeChecks(body) && PaletteOf(body).Str? && !Palette.Matches(PaletteOf(body).s)
        ==> r == Failure(BadRequest(PaletteInvalid))
    ensures PastSizeChecks(body) && PaletteOf(body).Str? && Palette.Matches(PaletteOf(body).s)
            && Truthy(OptionsOf(body).ccPal)
        ==> r == Failure(BadRequest(PaletteAndBuiltin))
    ensures PastSizeChecks(body) && PaletteAllowed(body)
            && Command.Build(Jobs.InputPath(id), Jobs.OutputPath(id), OptionsOf(body)).Failure?
        ==> r == Failure(BadRequest(Command.Build(Jobs.InputPath(id), Jobs.OutputPath(id), OptionsOf(body)).error))
  {
    if "url" in body && "data" in body then Failure(BadRequest(UrlAndData))
    else
      var o := OptionsOf(body);
      if !IsIntOrNone(o.width) then Failure(BadRequest(WidthNotInt))
      else if !IsIntOrNone(o.height) then Failure(BadRequest(HeightNotInt))
      else
        var palette := PaletteOf(body);
        // `re.match` raises `TypeError` on anything but a string.
        if !palette.Null? && !palette.Str? then Failure(Crash)
        else if palette.Str? && !Palette.Matches(palette.s) then Failure(BadRequest(PaletteInvalid))
        else if !palette.Null? && Truthy(o.ccPal) then Failure(BadRequest(PaletteAndBuiltin))
        else
          match Command.Build(Jobs.InputPath(id), Jobs.OutputPath(id), o)
          case Failure(message) => Failure(BadRequest(message))
          case Success(cmd) =>
            var source := if "url" in body then FromUrl else if "data" in body then FromData else NoSource;
            Success(Job(cmd, source))
  }

  /** Fetching the input, running the converter and answering. With neither
      `url` nor `data` the input variable is never bound and writing it
      raises. */
  function Run(job: Job, w: World): (r: Outcome)
    ensures r == Crash <==> job.source == NoSource
    ensures r.Reply? ==> r.status in {200, 400, 500}
    ensures r.Reply? && r.status == 200 <==> job.source != NoSource && w.fetched && w.exitCode == 0
    ensures r.Reply? && r.status == 200 ==> r.body == w.converted && r.contentType == Some(LuaType)
    ensures r.Reply? && r.status == 400 ==> r.body == FetchFailed
    ensures r.Reply? && r.status == 500 <==> job.source != NoSource && w.fetched && w.exitCode != 0
    ensures r.Reply? && r.status == 500 ==> r.body == ExitPrefix + Decimal.FromInt(w.exitCode)
  {
    if job.source == NoSource then Crash
    else if !w.fetched then BadRequest(FetchFailed)
    else if w.exitCode == 0 then Reply(200, w.converted, Some(LuaType))
    else
      Reply(500, ExitPrefix + Decimal.FromInt(w.exitCode), None)
  }

  /** `post_convert` for one request body. It answers 200 exactly for a
      well-formed body with a source whose input was obtained and whose
      conversion exited with 0, 500 exactly when such a conversion exited
      with another code, and raises exactly for a non-string palette past
      the size checks or a well-formed body without a source; every other
      answer is a 400 with one of the fixed texts. */
  function Handle(body: Body, w: World): (r: Outcome)
    ensures r.Reply? && r.status == 200 <==> WellFormed(body) && HasSource(body) && w.fetched && w.exitCode == 0
    ensures r.Reply? && r.status == 200 ==> r == Reply(200, w.converted, Some(LuaType))
    ensures r.Reply? && r.status == 500 <==> WellFormed(body) && HasSource(body) && w.fetched && w.exitCode != 0
    ensures r.Reply? && r.status == 500 ==> r.body == ExitPrefix + Decimal.FromInt(w.exitCode)
    ensures r == Crash
        <==> (PastSizeChecks(body) && !PaletteOf(body).Null? && !PaletteOf(body).Str?)
             || (WellFormed(body) && !HasSource(body))
    ensures r.Reply? ==> r.status in {200, 400, 500}
    ensures r.Reply? && r.status == 400 ==> r.body in BadRequestBodies
  {
    match Prepare(body, w.jobId)
    case Failure(outcome) => outcome
    case Success(job) => Run(job, w)
  }

  /** A body without `format` gets the default `blit`, which the builder
      rejects: such a request never succeeds, and once the earlier checks
      pass it is answered 400 with the builder's message, the output-format
      one when the dithering is valid. */
  lemma DefaultFormatRejected(body: Body, w: World)
    requires "format" !in body
    ensures !(Handle(body, w).Reply? && Handle(body, w).status == 200)
    ensures PastSizeChecks(body) && PaletteAllowed(body)
        ==> Handle(body, w) == BadRequest(
              if Command.InList(OptionsOf(body).dithering, Command.Ditherings) then Command.OutputError
              else Command.DitheringError)
  {
  }

  /** The palette never reaches the command: a body that passes validation
      is prepared exactly as the same body without its palette. */
  lemma PaletteIgnored(body: Body, id: string)
    requires Prepare(body, id).Success?
    ensures Prepare(body - {"palette"}, id) == Prepare(body, id)
  {
    var other := body - {"palette"};
    assert OptionsOf(other) == OptionsOf(body);
  }

  /** The command of a prepared request asks the converter for exactly the
      options the body gave (a width or height only when truthy), with the
      job's two temporary files. */
  lemma CommandCarriesOptions(body: Body, id: string)
    requires Jobs.IsJobId(id)
    requires Prepare(body, id).Success?
    requires !OptionsOf(body).width.Bool? && !OptionsOf(body).height.Bool?
    ensures Invocation.ReadArgs(Words(Prepare(body, id).value.cmd))
         == Some(Invocation.Intended(Jobs.InputPath(id), Jobs.OutputPath(id), OptionsOf(body)))
  {
    Jobs.PathsAreWords(id);
    Invocation.ReadBuiltCommand(Jobs.InputPath(id), Jobs.OutputPath(id), OptionsOf(body));
  }
}
