/** What the command line built by `build_sanjuuni` asks for: the shell
    splits it into words, and a reader of the builder's flag layout (not
    the converter's own option parser) takes the flags back out of them.
    Reading back a built command recovers every option it was built from. */
module Invocation {
  import opened Wrappers
  import opened PyValue
  import Decimal
  import opened Strings
  import opened Command

  /** What one run of the converter is asked to do. */
  datatype Call = Call(
    output: string,
    dithering: string,
    builtinPalette: bool,
    binary: bool,
    height: Option<int>,
    width: Option<int>,
    src: string,
    out: string)

  /** The output format an output-format flag of the builder names. */
  function OutputNamed(flag: string): Option<string>
  {
    if flag == "-b" then Some("bimg")
    else if flag == "-n" then Some("nfp")
    else None
  }

  /** The dithering a dithering flag of the builder names. */
  function DitheringNamed(flag: string): Option<string>
  {
    if flag == "-t" then Some("threshold")
    else if flag == "-O" then Some("ordered")
    else if flag == "-L" then Some("lab-color")
    else if flag == "-8" then Some("octree")
    else if flag == "-k" then Some("kmeans")
    else None
  }

  /** An optional dithering flag; without one the dithering is `none`. */
  function TakeDithering(args: seq<string>): (string, seq<string>)
  {
    if |args| > 0 && DitheringNamed(args[0]).Some? then (DitheringNamed(args[0]).value, args[1..])
    else ("none", args)
  }

  /** An optional flag without a value. */
  function TakeSwitch(args: seq<string>, flag: string): (bool, seq<string>)
  {
    if |args| > 0 && args[0] == flag then (true, args[1..]) else (false, args)
  }

  /** An optional flag followed by an integer. */
  function TakeSize(args: seq<string>, flag: string): Option<(Option<int>, seq<string>)>
  {
    if |args| > 0 && args[0] == flag then
      if |args| > 1 && Decimal.ToInt(args[1]).Some? then Some((Some(Decimal.ToInt(args[1]).value), args[2..]))
      else None
    else Some((None, args))
  }

  /** The closing `-i <src> -o <out>`, with nothing after it. */
  function TakePaths(args: seq<string>): Option<(string, string)>
  {
    if |args| == 4 && args[0] == "-i" && args[2] == "-o" then Some((args[1], args[3])) else None
  }

  /** A reader of the builder's flag layout: it accepts the flags only in
      the order the builder writes them, each stage filling in one field of
      the call. */
  function ReadArgs(argv: seq<string>): Option<Call>
  {
    if |argv| < 2 || argv[0] != "sanjuuni" || OutputNamed(argv[1]).None? then None
    else ReadDitheringArg(Call(OutputNamed(argv[1]).value, "none", false, false, None, None, "", ""), argv[2..])
  }

  function ReadDitheringArg(c: Call, args: seq<string>): Option<Call>
  {
    var (dithering, rest) := TakeDithering(args);
    ReadPaletteArg(c.(dithering := dithering), rest)
  }

  function ReadPaletteArg(c: Call, args: seq<string>): Option<Call>
  {
    var (pal, rest) := TakeSwitch(args, "-p");
    ReadHeightArg(c.(builtinPalette := pal), rest)
  }

  function ReadHeightArg(c: Call, args: seq<string>): Option<Call>
  {
    match TakeSize(args, "-H")
    case None => None
    case Some((height, rest)) => ReadWidthArg(c.(height := height), rest)
  }

  function ReadWidthArg(c: Call, args: seq<string>): Option<Call>
  {
    match TakeSize(args, "-W")
    case None => None
    case Some((width, rest)) => ReadBinaryArg(c.(width := width), rest)
  }

  function ReadBinaryArg(c: Call, args: seq<string>): Option<Call>
  {
    var (binary, rest) := TakeSwitch(args, "-B");
    ReadPathArgs(c.(binary := binary), rest)
  }

  function ReadPathArgs(c: Call, args: seq<string>): Option<Call>
  {
    match TakePaths(args)
    case None => None
    case Some((src, out)) => Some(c.(src := src, out := out))
  }

  /** The integer a width or height option stands for: a falsy value
      (`None` or `0`) gives no flag at all. */
  function Size(v: Value): Option<int>
    requires v.Null? || v.Int?
  {
    if Truthy(v) then Some(v.i) else None
  }

  /** What a set of accepted options asks the converter to do. */
  function Intended(src: string, out: string, o: Options): Call
    requires InList(o.dithering, Ditherings) && InList(o.output, Outputs)
    requires (o.width.Null? || o.width.Int?) && (o.height.Null? || o.height.Int?)
  {
    Call(o.output.s, o.dithering.s, Truthy(o.ccPal), Truthy(o.binary), Size(o.height), Size(o.width), src, out)
  }

  // ---------------------------------------------------------------------
  // The words of each flag.
  // ---------------------------------------------------------------------

  lemma SwitchWords(flag: string, v: Value)
    requires IsWord(flag)
    ensures Words(SwitchFlag(flag, v)) == if Truthy(v) then [flag] else []
  {
    WordsOfWord(SwitchFlag(flag, v));
  }

  lemma SizeWords(flag: string, v: Value)
    requires IsWord(flag) && (v.Null? || v.Int?)
    ensures Words(SizeFlag(flag, v)) == if Truthy(v) then [flag, Decimal.FromInt(v.i)] else []
  {
    if Truthy(v) {
      var n := Decimal.FromInt(v.i);
      WordsAppend(flag, n);
      WordsOfWord(flag);
      WordsOfWord(n);
    } else {
      WordsOfWord("");
    }
  }

  /** Word splitting one more space-separated part, from the left. */
  lemma WordsStep(prefix: string, x: string, done: seq<string>)
    requires Words(prefix) == done
    ensures Words(prefix + " " + x) == done + Words(x)
  {
    WordsAppend(prefix, x);
  }

  /** Word splitting a literal part that is one word, between spaces. */
  lemma WordsStepLiteral(prefix: string, lit: string, done: seq<string>)
    requires Words(prefix) == done && IsWord(lit)
    ensures Words(prefix + " " + lit) == done + [lit]
  {
    WordsAppend(prefix, lit);
    WordsOfWord(lit);
  }

  lemma Spaced(a: string, lit: string, b: string)
    ensures a + (" " + lit + " ") + b == a + " " + lit + " " + b
  {
  }

  /** The six flag slots, word by word. */
  lemma FlagWords(fmt: string, dither: string, pal: string, h: string, w: string, b: string)
    ensures Words("sanjuuni " + fmt + " " + dither + " " + pal + " " + h + " " + w + " " + b)
         == ["sanjuuni"] + Words(fmt) + Words(dither) + Words(pal) + Words(h) + Words(w) + Words(b)
  {
    WordsOfWord("sanjuuni");
    var c1 := "sanjuuni " + fmt;
    assert c1 == "sanjuuni" + " " + fmt;
    WordsStep("sanjuuni", fmt, ["sanjuuni"]);
    var d1 := ["sanjuuni"] + Words(fmt);
    var c2 := c1 + " " + dither;
    WordsStep(c1, dither, d1);
    var d2 := d1 + Words(dither);
    var c3 := c2 + " " + pal;
    WordsStep(c2, pal, d2);
    var d3 := d2 + Words(pal);
    var c4 := c3 + " " + h;
    WordsStep(c3, h, d3);
    var d4 := d3 + Words(h);
    var c5 := c4 + " " + w;
    WordsStep(c4, w, d4);
    var d5 := d4 + Words(w);
    WordsStep(c5, b, d5);
  }

  /** The closing `-i <src> -o <out>`, word by word. */
  lemma PathWords(line: string, done: seq<string>, src: string, out: string)
    requires Words(line) == done
    requires IsWord(src) && IsWord(out)
    ensures Words(line + " -i " + src + " -o " + out) == done + ["-i"] + [src] + ["-o"] + [out]
  {
    WordsStepLiteral(line, "-i", done);
    WordsStepLiteral(line + " " + "-i", src, done + ["-i"]);
    var c7 := line + " -i " + src;
    assert " -i " == " " + "-i" + " ";
    Spaced(line, "-i", src);
    var d7 := done + ["-i"] + [src];
    WordsStepLiteral(c7, "-o", d7);
    WordsStepLiteral(c7 + " " + "-o", out, d7 + ["-o"]);
    assert " -o " == " " + "-o" + " ";
    Spaced(c7, "-o", out);
  }

  /** The words a shell makes of a built command line, flag by flag. */
  lemma CommandWords(fmt: string, dither: string, pal: string, h: string, w: string, b: string, src: string, out: string)
    requires IsWord(src) && IsWord(out)
    ensures Words("sanjuuni " + fmt + " " + dither + " " + pal + " " + h + " " + w + " " + b + " -i " + src + " -o " + out)
         == ["sanjuuni"] + Words(fmt) + Words(dither) + Words(pal) + Words(h) + Words(w) + Words(b)
            + ["-i"] + [src] + ["-o"] + [out]
  {
    FlagWords(fmt, dither, pal, h, w, b);
    PathWords("sanjuuni " + fmt + " " + dither + " " + pal + " " + h + " " + w + " " + b,
              ["sanjuuni"] + Words(fmt) + Words(dither) + Words(pal) + Words(h) + Words(w) + Words(b), src, out);
  }

  // ---------------------------------------------------------------------
  // Reading back each flag.
  // ---------------------------------------------------------------------

  lemma TakeDitheringFlag(d: string, rest: seq<string>)
    requires d in DitherFlags
    requires |rest| > 0 && DitheringNamed(rest[0]).None?
    ensures TakeDithering(Words(DitherFlags[d]) + rest) == (d, rest)
  {
    var flag := DitherFlags[d];
    WordsOfWord(flag);
    if flag == "" {
      assert Words(flag) + rest == rest;
    } else {
      assert (Words(flag) + rest)[1..] == rest;
    }
  }

  lemma NotDitheringFlag(x: string)
    requires x in {"-p", "-H", "-W", "-B", "-i"}
    ensures DitheringNamed(x).None?
  {
  }

  lemma ReadDithering(c: Call, d: string, rest: seq<string>)
    requires d in DitherFlags
    requires |rest| > 0 && DitheringNamed(rest[0]).None?
    ensures ReadDitheringArg(c, Words(DitherFlags[d]) + rest) == ReadPaletteArg(c.(dithering := d), rest)
  {
    TakeDitheringFlag(d, rest);
  }

  lemma ReadSwitch(flag: string, v: Value, rest: seq<string>)
    requires IsWord(flag)
    requires |rest| > 0 && rest[0] != flag
    ensures TakeSwitch(Words(SwitchFlag(flag, v)) + rest, flag) == (Truthy(v), rest)
  {
    SwitchWords(flag, v);
    if Truthy(v) {
      assert ([flag] + rest)[1..] == rest;
    } else {
      assert Words(SwitchFlag(flag, v)) + rest == rest;
    }
  }

  lemma ReadSize(flag: string, v: Value, rest: seq<string>)
    requires IsWord(flag) && (v.Null? || v.Int?)
    requires |rest| > 0 && rest[0] != flag
    ensures TakeSize(Words(SizeFlag(flag, v)) + rest, flag) == Some((Size(v), rest))
  {
    SizeWords(flag, v);
    if Truthy(v) {
      var args := [flag, Decimal.FromInt(v.i)] + rest;
      assert args[1] == Decimal.FromInt(v.i);
      assert args[2..] == rest;
    } else {
      assert Words(SizeFlag(flag, v)) + rest == rest;
    }
  }

  lemma ReadPalette(c: Call, v: Value, rest: seq<string>)
    requires |rest| > 0 && rest[0] != "-p"
    ensures ReadPaletteArg(c, Words(SwitchFlag("-p", v)) + rest) == ReadHeightArg(c.(builtinPalette := Truthy(v)), rest)
  {
    ReadSwitch("-p", v, rest);
  }

  lemma ReadHeight(c: Call, v: Value, rest: seq<string>)
    requires v.Null? || v.Int?
    requires |rest| > 0 && rest[0] != "-H"
    ensures ReadHeightArg(c, Words(SizeFlag("-H", v)) + rest) == ReadWidthArg(c.(height := Size(v)), rest)
  {
    ReadSize("-H", v, rest);
  }

  lemma ReadWidth(c: Call, v: Value, rest: seq<string>)
    requires v.Null? || v.Int?
    requires |rest| > 0 && rest[0] != "-W"
    ensures ReadWidthArg(c, Words(SizeFlag("-W", v)) + rest) == ReadBinaryArg(c.(width := Size(v)), rest)
  {
    ReadSize("-W", v, rest);
  }

  lemma ReadBinary(c: Call, v: Value, rest: seq<string>)
    requires |rest| > 0 && rest[0] != "-B"
    ensures ReadBinaryArg(c, Words(SwitchFlag("-B", v)) + rest) == ReadPathArgs(c.(binary := Truthy(v)), rest)
  {
    ReadSwitch("-B", v, rest);
  }

  lemma Reassociate(head: seq<string>, d: seq<string>, p: seq<string>, h: seq<string>,
                     w: seq<string>, b: seq<string>, src: string, out: string)
    ensures head + d + p + h + w + b + ["-i"] + [src] + ["-o"] + [out]
         == head + (d + (p + (h + (w + (b + ["-i", src, "-o", out])))))
  {
    assert ["-i"] + [src] + ["-o"] + [out] == ["-i", src, "-o", out];
  }

  /** The words of a built command after the binary switch. */
  function PathArgs(src: string, out: string): seq<string>
  {
    ["-i", src, "-o", out]
  }

  /** The words of a built command from the binary switch on. */
  function BinaryArgs(src: string, out: string, o: Options): seq<string>
  {
    Words(SwitchFlag("-B", o.binary)) + PathArgs(src, out)
  }

  /** The words of a built command from the width flag on. */
  function WidthArgs(src: string, out: string, o: Options): seq<string>
  {
    Words(SizeFlag("-W", o.width)) + BinaryArgs(src, out, o)
  }

  /** The words of a built command from the height flag on. */
  function HeightArgs(src: string, out: string, o: Options): seq<string>
  {
    Words(SizeFlag("-H", o.height)) + WidthArgs(src, out, o)
  }

  /** The words of a built command from the palette switch on. */
  function PaletteArgs(src: string, out: string, o: Options): seq<string>
  {
    Words(SwitchFlag("-p", o.ccPal)) + HeightArgs(src, out, o)
  }

  /** The words of a built command past `sanjuuni` and the output-format
      flag. */
  function FlagArgs(src: string, out: string, o: Options): seq<string>
    requires InList(o.dithering, Ditherings)
  {
    Words(DitherFlags[o.dithering.s]) + PaletteArgs(src, out, o)
  }

  /** The words a shell makes of a built command line. */
  lemma BuiltWords(src: string, out: string, o: Options)
    requires Build(src, out, o).Success?
    requires IsWord(src) && IsWord(out)
    ensures Words(Build(src, out, o).value) == ["sanjuuni", OutputFlags[o.output.s]] + FlagArgs(src, out, o)
  {
    var fmt := OutputFlags[o.output.s];
    var dither := DitherFlags[o.dithering.s];
    var pal := SwitchFlag("-p", o.ccPal);
    var b := SwitchFlag("-B", o.binary);
    var w := SizeFlag("-W", o.width);
    var h := SizeFlag("-H", o.height);
    BuiltText(src, out, o);
    CommandWords(fmt, dither, pal, h, w, b, src, out);
    WordsOfWord(fmt);
    var head := ["sanjuuni"] + [fmt];
    assert head == ["sanjuuni", fmt];
    Reassociate(head, Words(dither), Words(pal), Words(h), Words(w), Words(b), src, out);
  }

  /** Reading from the binary switch on. */
  lemma ReadFromBinary(c: Call, src: string, out: string, o: Options)
    ensures ReadBinaryArg(c, BinaryArgs(src, out, o)) == Some(c.(binary := Truthy(o.binary), src := src, out := out))
  {
    ReadBinary(c, o.binary, PathArgs(src, out));
  }

  /** Reading from the width flag on. */
  lemma ReadFromWidth(c: Call, src: string, out: string, o: Options)
    requires o.width.Null? || o.width.Int?
    ensures ReadWidthArg(c, WidthArgs(src, out, o))
         == Some(c.(width := Size(o.width), binary := Truthy(o.binary), src := src, out := out))
  {
    var rest := BinaryArgs(src, out, o);
    SwitchWords("-B", o.binary);
    assert rest[0] in {"-B", "-i"};
    ReadWidth(c, o.width, rest);
    ReadFromBinary(c.(width := Size(o.width)), src, out, o);
  }

  /** Reading from the height flag on. */
  lemma ReadFromHeight(c: Call, src: string, out: string, o: Options)
    requires (o.width.Null? || o.width.Int?) && (o.height.Null? || o.height.Int?)
    ensures ReadHeightArg(c, HeightArgs(src, out, o))
         == Some(c.(height := Size(o.height), width := Size(o.width), binary := Truthy(o.binary), src := src, out := out))
  {
    var rest := WidthArgs(src, out, o);
    SwitchWords("-B", o.binary);
    SizeWords("-W", o.width);
    assert rest[0] in {"-W", "-B", "-i"};
    ReadHeight(c, o.height, rest);
    ReadFromWidth(c.(height := Size(o.height)), src, out, o);
  }

  /** Reading from the palette switch on. */
  lemma ReadFromPalette(c: Call, src: string, out: string, o: Options)
    requires (o.width.Null? || o.width.Int?) && (o.height.Null? || o.height.Int?)
    ensures ReadPaletteArg(c, PaletteArgs(src, out, o))
         == Some(c.(builtinPalette := Truthy(o.ccPal), height := Size(o.height), width := Size(o.width),
                    binary := Truthy(o.binary), src := src, out := out))
  {
    var rest := HeightArgs(src, out, o);
    SwitchWords("-B", o.binary);
    SizeWords("-W", o.width);
    SizeWords("-H", o.height);
    assert rest[0] in {"-H", "-W", "-B", "-i"};
    ReadPalette(c, o.ccPal, rest);
    ReadFromHeight(c.(builtinPalette := Truthy(o.ccPal)), src, out, o);
  }

  /** The reader of the builder's flag layout recovers the flags of a built
      command. */
  lemma ReadFlagArgs(src: string, out: string, o: Options)
    requires InList(o.dithering, Ditherings) && InList(o.output, Outputs)
    requires (o.width.Null? || o.width.Int?) && (o.height.Null? || o.height.Int?)
    ensures ReadArgs(["sanjuuni", OutputFlags[o.output.s]] + FlagArgs(src, out, o)) == Some(Intended(src, out, o))
  {
    var argv := ["sanjuuni", OutputFlags[o.output.s]] + FlagArgs(src, out, o);
    assert argv[2..] == FlagArgs(src, out, o);
    assert OutputNamed(OutputFlags[o.output.s]) == Some(o.output.s);
    var c0 := Call(o.output.s, "none", false, false, None, None, "", "");
    var rest := PaletteArgs(src, out, o);
    SwitchWords("-B", o.binary);
    SizeWords("-W", o.width);
    SizeWords("-H", o.height);
    SwitchWords("-p", o.ccPal);
    assert rest[0] in {"-p", "-H", "-W", "-B", "-i"};
    NotDitheringFlag(rest[0]);
    FlagTablesMatchChecks();
    ReadDithering(c0, o.dithering.s, rest);
    ReadFromPalette(c0.(dithering := o.dithering.s), src, out, o);
  }

  /** Reading back a built command line gives exactly what the options ask
      for: the output format, the dithering, the built-in palette and
      binary switches, a height and a width exactly when they are truthy,
      and the two paths. */
  lemma ReadBuiltCommand(src: string, out: string, o: Options)
    requires Build(src, out, o).Success?
    requires IsWord(src) && IsWord(out)
    requires (o.width.Null? || o.width.Int?) && (o.height.Null? || o.height.Int?)
    ensures ReadArgs(Words(Build(src, out, o).value)) == Some(Intended(src, out, o))
  {
    BuiltWords(src, out, o);
    ReadFlagArgs(src, out, o);
  }
}
