/** `build_sanjuuni`: the command line that runs the `sanjuuni` converter
    for one set of options. */
module Command {
  import opened Wrappers
  import opened PyValue
  import Decimal

  /** The dithering names the builder accepts. */
  const Ditherings: seq<string> := ["threshold", "ordered", "lab-color", "octree", "kmeans", "none"]

  /** The output format names the builder accepts; `blit` is not one. */
  const Outputs: seq<string> := ["bimg", "nfp"]

  /** The converter flag for each dithering name; `none` has no flag. */
  const DitherFlags: map<string, string> := map[
    "threshold" := "-t",
    "ordered" := "-O",
    "lab-color" := "-L",
    "octree" := "-8",
    "kmeans" := "-k",
    "none" := ""
  ]

  /** The converter flag for each output format name. */
  const OutputFlags: map<string, string> := map["bimg" := "-b", "nfp" := "-n"]

  const DitheringError: string := "dithering not in threshold, ordered, lab-color, octree, kmeans, none"

  /** The message for a bad output format; its wording says "dithering". */
  const OutputError: string := "dithering not in bimg, nfp"

  /** The keyword arguments of `build_sanjuuni`. The handler passes on
      whatever JSON values the request held, so they are Python values. */
  datatype Options = Options(
    binary: Value,
    ccPal: Value,
    dithering: Value,
    width: Value,
    height: Value,
    output: Value)

  /** The keyword defaults of `build_sanjuuni`. */
  const Defaults: Options := Options(Bool(false), Bool(false), Str("none"), Null, Null, Str("blit"))

  /** Python's `v in xs` for a list of strings: a non-string is never in it. */
  predicate InList(v: Value, xs: seq<string>)
  {
    v.Str? && v.s in xs
  }

  // ---------------------------------------------------------------------
  // The command template and Python's `str.format` over it.
  // ---------------------------------------------------------------------

  /** The named replacement fields of the template. */
  datatype Slot = Fmt | Dither | Pal | H | W | B | Src | Out

  /** A piece of a format string: literal text or a `{name}` field. */
  datatype Piece = Lit(text: string) | Field(slot: Slot)

  /** `"sanjuuni {fmt} {dither} {pal} {h} {w} {b} -i {src} -o {out}"`,
      split by hand into literal text and named fields. The split is checked
      only by reading it against the format string: the lemmas about the
      template start from this constant. */
  const Template: seq<Piece> := [
    Lit("sanjuuni "), Field(Fmt), Lit(" "), Field(Dither), Lit(" "), Field(Pal),
    Lit(" "), Field(H), Lit(" "), Field(W), Lit(" "), Field(B),
    Lit(" -i "), Field(Src), Lit(" -o "), Field(Out)]

  /** The keyword arguments given to `format`. */
  datatype Fields = Fields(fmt: string, dither: string, pal: string, h: string, w: string, b: string, src: string, out: string)

  function Lookup(f: Fields, slot: Slot): string
  {
    match slot
    case Fmt => f.fmt
    case Dither => f.dither
    case Pal => f.pal
    case H => f.h
    case W => f.w
    case B => f.b
    case Src => f.src
    case Out => f.out
  }

  /** The text one piece of a format string stands for. */
  function Render(p: Piece, f: Fields): string
  {
    match p
    case Lit(t) => t
    case Field(slot) => Lookup(f, slot)
  }

  /** `template.format(**fields)`. */
  function Format(template: seq<Piece>, f: Fields): string
  {
    if |template| == 0 then ""
    else Render(template[0], f) + Format(template[1..], f)
  }

  // ---------------------------------------------------------------------
  // The builder.
  // ---------------------------------------------------------------------

  /** `f"-W {width}" if width else ""`, and the same for `-H`. */
  function SizeFlag(flag: string, v: Value): string
  {
    if Truthy(v) then flag + " " + ToStr(v) else ""
  }

  /** `"-p" if cc_pal else ""`, and the same for `-B`. */
  function SwitchFlag(flag: string, v: Value): string
  {
    if Truthy(v) then flag else ""
  }

  /** `build_sanjuuni(src, out, **o)`: the dithering name is checked first,
      then the output format; the result is the filled-in template, or the
      message of the `ValueError` raised. */
  function Build(src: string, out: string, o: Options): (r: Result<string, string>)
    ensures r.Failure? <==> !InList(o.dithering, Ditherings) || !InList(o.output, Outputs)
    ensures !InList(o.dithering, Ditherings) ==> r == Failure(DitheringError)
    ensures InList(o.dithering, Ditherings) && !InList(o.output, Outputs) ==> r == Failure(OutputError)
  {
    if !InList(o.dithering, Ditherings) then Failure(DitheringError)
    else if !InList(o.output, Outputs) then Failure(OutputError)
    else
      var dither := DitherFlags[o.dithering.s];
      var fmt := OutputFlags[o.output.s];
      var pal := SwitchFlag("-p", o.ccPal);
      var b := SwitchFlag("-B", o.binary);
      var w := SizeFlag("-W", o.width);
      var h := SizeFlag("-H", o.height);
      Success(Format(Template, Fields(fmt, dither, pal, h, w, b, src, out)))
  }

  // ---------------------------------------------------------------------
  // Properties of the builder.
  // ---------------------------------------------------------------------

  /** The handler's default output format `blit` is not accepted: with a
      valid dithering the builder raises the output-format error, and the
      builder's own defaults fail the same way. */
  lemma BlitRejected(src: string, out: string, o: Options)
    requires o.output == Str("blit")
    ensures Build(src, out, o).Failure?
    ensures InList(o.dithering, Ditherings) ==> Build(src, out, o) == Failure(OutputError)
    ensures Build(src, out, Defaults) == Failure(OutputError)
  {
  }

  /** A width or height flag is written exactly when the value is truthy:
      `None` and `0` both leave the slot empty. */
  lemma SizeFlagWhenTruthy(flag: string, v: Value)
    ensures SizeFlag(flag, v) == "" <==> !Truthy(v)
    ensures SizeFlag(flag, Null) == "" && SizeFlag(flag, Int(0)) == ""
    ensures v.Int? && v.i != 0 ==> SizeFlag(flag, v) == flag + " " + Decimal.FromInt(v.i)
  {
  }

  /** On success the command is the template with every flag in its slot:
      output format, dithering, palette, height, width, binary, then the
      two paths. */
  lemma BuiltText(src: string, out: string, o: Options)
    requires Build(src, out, o).Success?
    ensures Build(src, out, o).value
         == "sanjuuni " + OutputFlags[o.output.s] + " " + DitherFlags[o.dithering.s]
            + " " + SwitchFlag("-p", o.ccPal) + " " + SizeFlag("-H", o.height)
            + " " + SizeFlag("-W", o.width) + " " + SwitchFlag("-B", o.binary)
            + " -i " + src + " -o " + out
  {
    FormatTemplate(Fields(OutputFlags[o.output.s], DitherFlags[o.dithering.s], SwitchFlag("-p", o.ccPal),
                          SizeFlag("-H", o.height), SizeFlag("-W", o.width), SwitchFlag("-B", o.binary), src, out));
  }

  /** Both flag lookups after the checks are defined exactly on the
      accepted names, so they never raise `KeyError`. */
  lemma FlagTablesMatchChecks()
    ensures forall d :: d in Ditherings <==> d in DitherFlags
    ensures forall f :: f in Outputs <==> f in OutputFlags
  {
  }

  /** Each dithering name gets its own flag. */
  lemma DitherFlagsDistinct()
    ensures forall d1, d2 :: d1 in DitherFlags && d2 in DitherFlags && d1 != d2 ==> DitherFlags[d1] != DitherFlags[d2]
    ensures forall f1, f2 :: f1 in OutputFlags && f2 in OutputFlags && f1 != f2 ==> OutputFlags[f1] != OutputFlags[f2]
  {
  }

  /** Filling in a template one more piece, from the left. */
  lemma FormatStep(t: seq<Piece>, k: nat, f: Fields, done: string)
    requires k < |t|
    requires Format(t, f) == done + Format(t[k..], f)
    ensures Format(t, f) == (done + Render(t[k], f)) + Format(t[k + 1..], f)
  {
    assert t[k..][1..] == t[k + 1..];
  }

  /** Four more pieces of the template, starting at piece `k`. */
  lemma FormatFour(f: Fields, k: nat, done: string)
    requires k + 4 <= |Template|
    requires Format(Template, f) == done + Format(Template[k..], f)
    ensures Format(Template, f)
         == done + Render(Template[k], f) + Render(Template[k + 1], f) + Render(Template[k + 2], f) + Render(Template[k + 3], f)
            + Format(Template[k + 4..], f)
  {
    var t := Template;
    FormatStep(t, k, f, done);
    FormatStep(t, k + 1, f, done + Render(t[k], f));
    FormatStep(t, k + 2, f, done + Render(t[k], f) + Render(t[k + 1], f));
    FormatStep(t, k + 3, f, done + Render(t[k], f) + Render(t[k + 1], f) + Render(t[k + 2], f));
  }

  /** The template's text up to piece 4, 8, 12 and 16. */
  function UpTo4(f: Fields): string { "sanjuuni " + f.fmt + " " + f.dither }
  function UpTo8(f: Fields): string { UpTo4(f) + " " + f.pal + " " + f.h }
  function UpTo12(f: Fields): string { UpTo8(f) + " " + f.w + " " + f.b }
  function UpTo16(f: Fields): string { UpTo12(f) + " -i " + f.src + " -o " + f.out }

  lemma FormatUpTo4(f: Fields)
    ensures Format(Template, f) == UpTo4(f) + Format(Template[4..], f)
  {
    var t := Template;
    var r0 := Render(t[0], f);
    assert Format(t, f) == r0 + Format(t[1..], f);
    FormatStep(t, 1, f, r0);
    FormatStep(t, 2, f, r0 + Render(t[1], f));
    FormatStep(t, 3, f, r0 + Render(t[1], f) + Render(t[2], f));
    assert r0 + Render(t[1], f) + Render(t[2], f) + Render(t[3], f) == UpTo4(f);
  }

  lemma FormatUpTo8(f: Fields)
    ensures Format(Template, f) == UpTo8(f) + Format(Template[8..], f)
  {
    var t := Template;
    FormatUpTo4(f);
    FormatFour(f, 4, UpTo4(f));
    assert UpTo4(f) + Render(t[4], f) + Render(t[5], f) + Render(t[6], f) + Render(t[7], f) == UpTo8(f);
  }

  lemma FormatUpTo12(f: Fields)
    ensures Format(Template, f) == UpTo12(f) + Format(Template[12..], f)
  {
    var t := Template;
    FormatUpTo8(f);
    FormatFour(f, 8, UpTo8(f));
    assert UpTo8(f) + Render(t[8], f) + Render(t[9], f) + Render(t[10], f) + Render(t[11], f) == UpTo12(f);
  }

  /** The template, filled in: the flags in the order format, dithering,
      palette, height, width, binary, each followed by one space even when
      it is empty. */
  lemma FormatTemplate(f: Fields)
    ensures Format(Template, f)
         == "sanjuuni " + f.fmt + " " + f.dither + " " + f.pal + " " + f.h + " " + f.w + " " + f.b
            + " -i " + f.src + " -o " + f.out
  {
    var t := Template;
    FormatUpTo12(f);
    FormatFour(f, 12, UpTo12(f));
    assert UpTo12(f) + Render(t[12], f) + Render(t[13], f) + Render(t[14], f) + Render(t[15], f) == UpTo16(f);
    assert t[16..] == [];
  }
}
