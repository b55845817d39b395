# sanjuuni-server, modelled in Dafny

sanjuuni-server is a one-endpoint web service. `POST /convert` takes a JSON body naming an image (`url` or base64 `data`) and conversion options. It runs the external `sanjuuni` converter on the image and returns the text the converter wrote. This project models the decision logic around that converter and proves properties about it:

- **Palette check.** `PALETTE_PATTERN` is a regular expression for sixteen comma-separated colour entries. `Palette.Matches` follows the pattern piece by piece. It is proved equal to the pattern's language: sixteen entries joined by commas, where Python's `$` also lets one final newline through. A third characterisation is proved too: split the palette on commas and check each piece.
- **Command builder.** `build_sanjuuni` checks the dithering name and then the output format. It fills the fixed template `"sanjuuni {fmt} {dither} {pal} {h} {w} {b} -i {src} -o {out}"`. `Command.Build` models this, and `Command.Format` models Python's `str.format` over the template. The partner of the builder is `Invocation.ReadArgs`, a reader of the builder's flag layout. It takes the words a shell makes of the line and reads the flags in the order the builder writes them. It is not the converter's own option parser. Reading back a built command recovers every option it was built from.
- **Request handler.** `post_convert` runs ordered checks on the body. Each failure is a 400 with a fixed text. It then builds the command and answers by the converter's exit code. `Handler.Handle` models this over a body of decoded JSON values (`PyValue.Value`). The outside world is a parameter (`Handler.World`): the job id, whether fetching or decoding the input succeeded, the exit code, and the converted text. The lemmas characterise exactly when each answer is given.
- **Job ids and paths.** `gen_id` draws 32 characters from `ascii_letters + digits`. The random draws are a parameter of `Jobs.GenId`. The temporary paths `/tmp/sanjuuni_in<id>` and `/tmp/sanjuuni_out<id>.blit` are single shell words, and distinct ids never share a file.

Some behaviour follows the code as written, including where it is surprising:

- **Output format.** `build_sanjuuni` rejects every output format except `bimg` and `nfp`. That includes `blit`, which is the handler's own default. A body without `format` therefore never succeeds. It gets the 400 text `"dithering not in bimg, nfp"`, unless its dithering is bad too.
- **Hex digits.** The palette pattern accepts upper-case hex digits only.
- **No input source.** A body with neither `url` nor `data` is not rejected. The input variable is never bound, and the handler raises (`Handler.Crash`).
- **Non-string palette.** A `palette` that is not a string makes `re.match` raise. This is also `Handler.Crash`.
- **Palette value.** The palette is validated but never reaches the command.
- **Default values versus `null`.** `body.get(key, default)` returns the default only when the key is missing. An explicit JSON `null` dithering or format is therefore rejected by the builder.
- **Boolean width or height.** A boolean passes the width and height checks, because Python's `bool` is a subclass of `int`. The builder then writes `-W True`.

## Model

| member | source | states |
|---|---|---|
| Palette.MatchesIffAccepted | src/main.py:14 | The pattern matcher accepts a string exactly when it is sixteen entries joined by commas, with or without one trailing newline. Each entry is `X`, or six upper-case hex digits with an optional leading `#`. |
| Palette.MatchesIffSplit | src/main.py:14 | A palette is accepted exactly when, after one final newline is dropped, splitting it on commas gives sixteen pieces that are all entries. |
| Palette.JoinedEntriesMatch | src/main.py:14 | Any sixteen entries joined by commas are accepted, and so is the same string followed by a newline. |
| Palette.WrongShapeRejected | src/main.py:14 | A palette with fifteen, seventeen or any other number of pieces other than sixteen is rejected. So is one with a malformed piece. |
| Palette.EmptyPieceRejected | src/main.py:14 | A palette with an empty comma-separated piece is rejected. |
| Palette.AcceptedAlphabet | src/main.py:14 | An accepted palette holds only upper-case hex digits, `#`, `X`, commas and a newline, and a newline can only be its last character. Lower-case hex is never accepted. |
| Command.Build | src/main.py:20-49 | The builder fails exactly when the dithering is not one of the six names or the output is not `bimg`/`nfp`. A bad dithering gives the dithering message even when the output is bad too. A valid dithering with a bad output gives `"dithering not in bimg, nfp"`. |
| Command.BlitRejected | src/main.py:26-30 | Output `blit` always fails. With a valid dithering, and with the builder's own defaults, it fails with the output-format message. |
| Command.SizeFlagWhenTruthy | src/main.py:47-48 | `-W`/`-H` is written exactly when the value is truthy. `None` and `0` both give the empty string, and a non-zero int gives the flag, a space and its decimal text. |
| Command.BuiltText | src/main.py:32-49 | On success the command is exactly `"sanjuuni " + fmt + " " + dither + " " + pal + " " + h + " " + w + " " + b + " -i " + src + " -o " + out`. Each flag comes from its table or switch, and the height comes before the width. |
| Command.FormatTemplate | src/main.py:32 | Filling the template's named fields gives the literal text with every field in its place and the spaces between them kept. |
| Command.FlagTablesMatchChecks | src/main.py:27-44 | The dithering and format flag tables are defined on exactly the names the checks accept, so the lookups never raise `KeyError`. |
| Command.DitherFlagsDistinct | src/main.py:33-44 | Different dithering names get different flags, and so do different output formats. |
| Invocation.ReadBuiltCommand | src/main.py:32-49 | Split a successful command into shell words and read them with the reader of the builder's flag layout. The result is exactly the requested format, dithering, built-in palette and binary switches, height and width when truthy, and the two paths. |
| Decimal.FromNat | src/main.py:47-48 | The decimal text of a natural number is non-empty, all digits, has no leading zero, and reads back to the number. |
| Decimal.FromInt | src/main.py:47-48 | The decimal text of an int has a minus sign exactly for negatives, has no leading zero after the sign, and is one shell word. It reads back to the int. |
| Decimal.IntTextUnique | src/main.py:113 | Any text that reads as an int, has no leading zero and is not `-0` is exactly the text `str` prints for that int. So the contract of `FromInt` pins down Python's `str`. |
| Jobs.GenId | src/main.py:16-18 | Every result of `gen_id` is 32 ASCII letters or digits. |
| Jobs.EveryIdGenerated | src/main.py:16-18 | Every string of 32 ASCII letters or digits is a possible result of `gen_id`, so the pool is exactly the letters and digits. |
| Jobs.PathsAreWords | src/main.py:79-80 | For a job id, the input and output paths are single shell words. |
| Jobs.PathsDistinct | src/main.py:79-80 | No job's input path is any job's output path, and distinct ids give distinct paths. |
| Handler.Prepare | src/main.py:56-86 | The checks run in order and the first failure decides: both sources, then width, then height, then a non-string palette (which raises), then an invalid palette, then palette together with a truthy `cc-palette`, then the builder's error. A body passes exactly when it is well-formed field by field, and each rejection is a 400 with one of the fixed texts. |
| Handler.Run | src/main.py:88-113 | Without a source the handler raises. A failed fetch or decode is a 400 `"failed parsing data/url"`. Exit 0 gives 200 with the converted text as `text/x-lua`. Any other exit gives 500 with exactly `"sanjuuni exited with code "` followed by `str(code)`. |
| Handler.Handle | src/main.py:56-113 | The answer is 200 exactly for a well-formed body with a source whose input was obtained and whose conversion exited with 0. It is 500 exactly when such a conversion exited with another code, and then its text is exactly `"sanjuuni exited with code "` followed by `str(code)`. The handler raises exactly for a non-string palette past the size checks, or for a well-formed body without `url` or `data`. Every other answer is a 400 with one of the eight fixed texts. |
| Handler.DefaultFormatRejected | src/main.py:67-86 | A body without `format` never succeeds. Once the earlier checks pass, it gets a 400 with `"dithering not in bimg, nfp"` when the dithering is valid, and the dithering message otherwise. |
| Handler.PaletteIgnored | src/main.py:69-83 | Removing the palette from a body that passes validation leaves the prepared command unchanged. |
| Handler.CommandCarriesOptions | src/main.py:78-83 | The command built for an accepted body asks the converter for the body's options and the job's two temporary files. |

## Left out

- The aiohttp application, routing, `request.json()` and `web.run_app` (src/main.py:51-55, 115-118) are framework I/O. The body is taken as an already decoded JSON object. A body that is not an object is not modelled.
- Fetching `url` with `aiohttp.ClientSession` and `b64decode` of `data` (src/main.py:90-98) are network and library calls. Their success or failure is the parameter `World.fetched`, and any failure gives the 400 `"failed parsing data/url"`.
- Writing the input file, running the shell command, reading the output file and removing both files (src/main.py:100-110) are file-system and process I/O. The exit code and the converted text are parameters. That the success path deletes the files and the failure path leaks them is not modelled. After exit code 0 the handler reads the output file as text (src/main.py:107-110). That read raises when the file is missing, or when it is not valid text, for example after the binary `-B` switch. The model still answers 200 in that case, because the converted text is a parameter.
- The randomness of `random.choices` is modelled by passing the draws as a parameter of `Jobs.GenId`.
- `print(cmd)` (src/main.py:84) is logging only.
- An answer whose `contentType` is `None` stands for the framework's default for a text body, `text/plain; charset=utf-8`. The 400 and 500 answers pass only a text body.
- `Handler.Crash` stands for any exception escaping the handler. The framework's own 500 answer to it is not modelled.
- JSON floats, arrays and objects are kept only as their truthiness and their `str()` text (`PyValue.Other`). That is all the handler and the builder use of them.
- Invocation.ReadBuiltCommand: a boolean width or height is excluded. The builder writes `-W True` for it, which the converter cannot read as a size.
- Handler.CommandCarriesOptions: excludes boolean widths and heights, for the same reason.
- The converter's own behaviour is out of scope. `Invocation.ReadArgs` only reads the flags that the builder writes.
