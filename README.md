# website-assets-generator in Dafny

A model of the website-assets-generator command. It takes one logo (PNG or SVG)
and writes the favicon and web-app branding files into an output directory:

- six resized PNGs;
- `favicon.ico`;
- the Safari pinned-tab SVG;
- the web app manifest (twice);
- `browserconfig.xml`;
- an HTML snippet of meta tags.

The project has five modules, one per file:

- `Wrappers` (`wrappers.dfy`): the `Option` type that stands for a JavaScript value that may be `undefined`.
- `Strings` (`strings.dfy`): the JavaScript string and array operations the program relies on. They are `indexOf`, `includes`, `startsWith`, `join`, `toLowerCase`, JavaScript truthiness and the `||` default. `LastIndexBefore` is a helper of the `path.extname` model. The module also holds the facts the proofs about the generated text need: counting characters, splitting into lines, containment, and reading a value back from between a fixed head and tail.
- `Directory` (`directory.dfy`): a directory as a map from file name to content. `Overlay` applies a batch of writes to it in order; lemmas cover the names it then holds, what each one holds, what it leaves alone, and that rerunning changes nothing.
- `Generator` (`generator.dfy`): `src/generator.js`.
  - The parameter defaults.
  - The exact texts of `browserconfig.xml`, `meta-tags.html` and the pinned-tab SVG wrapper.
  - The manifest record.
  - `path.extname` and the case-insensitive `.svg` decision.
  - The ICO buffer loop.
  - The catalogue of the twelve outputs: `Asset(p, f)` is what output `f` holds, and `Writes(p)` is the twelve writes in program order.
  - A class `OutputDir` whose methods (`EnsureDir`, `WriteFile`) are the file-system steps. The methods `GeneratePng` … `GenerateAssets` perform them in the program's order. `GenerateAssets` is proved to leave `Overlay(old files, Writes(p))` in the directory.
- `Cli` (`cli.dfy`): `bin/cli.js`.
  - `getArg` as a pure lookup, with a first-occurrence reference definition and lemmas in both directions.
  - The top-level decision as `Decide(argv, existing)`. It returns `Help`, `UsageError`, `NotFound(path)` or `Generate(params)`, and `ExitCode` gives the exit status.

Image-library results are not bytes here. They are `Artifact` values that record what the library was asked to do:

- `Raster(Png(size, flatten))`;
- `Ico([...])`;
- `CopyOf(path)`;
- `SvgWrap(ThresholdedPng(512, 200))`;
- `Json(manifest)`.

The two text documents are recorded as `BrowserConfigFile(tileColor)` and `MetaTagsFile(appName, themeColor)`. `TextOf(a, base64)` gives the exact text of these two (`BrowserConfig`, `MetaTags`) and of the pinned-tab wrapper (`PinnedTabSvg` around the base64 text of its PNG), built character for character from the templates. The base64 encoder is a parameter, since the PNG bytes are not modelled.

When `--input` is missing, the error line goes to standard error through `console.error` (bin/cli.js:49). The usage text goes to standard output through `printHelp`'s `console.log` (bin/cli.js:50, 21). Console text is outside the model. `Decide` follows the order the code checks in.

## Model

| member | source | states |
|---|---|---|
| Strings.IndexOf | bin/cli.js:25 | `indexOf`: -1 exactly when absent; otherwise an index holding `x` with no earlier occurrence |
| Strings.StartsWith | bin/cli.js:26-29 | `startsWith`; its properties are `Cli.FlagBeforeDash` and `Cli.ValueAfterSpec` |
| Strings.Truthy | src/generator.js:13 | JavaScript truthiness of a string that may be undefined; its properties are `Generator.DefaultsKeepGivenValues`, `Generator.DefaultsFillMissing` and `Cli.ShortFlagFallback` |
| Strings.Or | src/generator.js:81-84 | the logical-or default, also used at bin/cli.js:42-46; its properties are `Generator.DefaultsKeepGivenValues`, `Generator.DefaultsFillMissing` and `Cli.DefaultsWhenAbsent` |
| Strings.Join | src/generator.js:74 | `lines.join('\n')`; its properties are `Strings.JoinCount` and `Strings.SplitJoinedLines` |
| Strings.Lower | src/generator.js:33 | `toLowerCase` on ASCII: same length; no upper-case letter is left; each upper-case letter becomes its lower-case form; every other character is kept in place |
| Strings.LowerIdempotent | src/generator.js:33 | lower-casing twice is lower-casing once |
| Strings.JoinCount | src/generator.js:74 | joining newline-free lines with `'\n'` puts exactly one newline fewer than there are lines |
| Strings.SplitJoinedLines | src/generator.js:74 | `lines.join('\n') + '\n'` splits back into exactly the same lines |
| Strings.BetweenRoundTrip | src/generator.js:54 | the text placed between a fixed head and tail is read back unchanged |
| Directory.Overlay | src/generator.js:101-127 | the writes applied in order; its properties are `OverlayKeys`, `OverlayOutside`, `OverlayLookup` and `OverlayIdempotent` |
| Directory.OverlayKeys | src/generator.js:101-127 | afterwards the directory holds the old names and the written ones |
| Directory.OverlayOutside | src/generator.js:101-127 | a name that is not written keeps its old content, or stays absent |
| Directory.OverlayLookup | src/generator.js:101-127 | with distinct names, each written name holds what was written to it |
| Directory.OverlayIdempotent | src/generator.js:101-127 | with distinct names, applying the same writes again changes nothing |
| Generator.FileName | src/generator.js:88-99 | the twelve output names; its property is `FileNamesDistinct` |
| Generator.ResolveDefaults | src/generator.js:81-84 | the defaults generateAssets applies with logical or; its properties are the three lemmas below |
| Generator.DefaultsKeepGivenValues | src/generator.js:81-84 | a present, non-empty app name, short name or colour is kept verbatim |
| Generator.DefaultsFillMissing | src/generator.js:81-84 | an absent or empty value becomes `Website`, `App` or `#ffffff`; every resolved value is non-empty |
| Generator.DefaultsIdempotent | src/generator.js:81-84 | feeding the resolved settings back in changes nothing |
| Generator.BrowserConfig | src/generator.js:54 | the browserconfig.xml template; its properties are the four lemmas below |
| Generator.BrowserConfigRoundTrip | src/generator.js:53-56 | the tile colour is the only variable part of browserconfig.xml: it is read back exactly, so different colours give different files |
| Generator.BrowserConfigTile | src/generator.js:54 | the text contains `<TileColor>` + colour + `</TileColor>` |
| Generator.BrowserConfigLogo | src/generator.js:54 | the text names `src="mstile-150x150.png"` as the tile logo |
| Generator.BrowserConfigElements | src/generator.js:54 | both of the above |
| Generator.TagContains | src/generator.js:60-72 | every attribute of a tag line occurs in it as `name="value"` |
| Generator.TagFreeOfNewlines | src/generator.js:60-72 | a tag line whose element, names and values hold no newline holds none |
| Generator.MetaTagLines | src/generator.js:59-73 | the 13 lines of meta-tags.html; the lemmas below state their content |
| Generator.MetaTags | src/generator.js:74 | `lines.join('\n') + '\n'`; `MetaTagsLineStructure` states that it splits back into the lines |
| Generator.MetaTagLinesFreeOfNewlines | src/generator.js:59-73 | with a newline-free name and colour, none of the 13 lines holds a newline |
| Generator.MetaTagsEmbedParameters | src/generator.js:68-71 | there are 13 lines; lines 9, 11 and 12 carry the theme colour and line 10 the app name, verbatim |
| Generator.MetaTagsConstantLines | src/generator.js:60-72 | lines 1–8 and 13 are the same whatever the name and colour |
| Generator.IconLinkTargets | src/generator.js:60-65 | lines 1–6 link to favicon.ico, the 16 and 32 px favicons, the apple-touch icon and the two Android PNGs, in that order |
| Generator.MetaTagsLinkTargets | src/generator.js:60-72 | lines 1–9 link to the nine files in line order; line 13 names browserconfig.xml |
| Generator.MetaTagsLineStructure | src/generator.js:59-74 | with a newline-free name and colour, the text has exactly 13 newlines and splits back into the 13 lines |
| Generator.MetaTagsContainLine | src/generator.js:74 | every line occurs in the document |
| Generator.MetaTagsMentionParameters | src/generator.js:60-74 | the document carries `content="<theme colour>"`, `content="<app name>"` and every `href` target |
| Generator.BuildManifest | src/generator.js:110-122 | the manifest literal; `ManifestFields` states its fields |
| Generator.ManifestFields | src/generator.js:110-122 | the manifest carries the four settings; display `standalone`, start URL and scope `/`; exactly two `image/png` icons, 192x192 then 512x512 |
| Generator.PinnedTabSvg | src/generator.js:44 | the SVG wrapper template; the two lemmas below state what it holds |
| Generator.PinnedTabSvgRoundTrip | src/generator.js:43-44 | the base64 payload is read back unchanged from the SVG wrapper |
| Generator.PinnedTabSvgDeclarations | src/generator.js:44 | the wrapper declares width, height and viewBox for 512 and embeds `data:image/png;base64,` + payload |
| Generator.Extname | src/generator.js:33 | Node's POSIX `path.extname`; the lemmas below state its results |
| Generator.ExtnameShape | src/generator.js:33 | an extension is empty, or a dot followed by text with no dot or slash |
| Generator.ExtnameOfFile | src/generator.js:33 | `dir/stem.ext` has extension `.ext`, for any directory prefix and non-empty stem |
| Generator.ExtnameOfDotFile | src/generator.js:33 | a dot file such as `dir/.svg` has no extension |
| Generator.ExtnameOfPlainName | src/generator.js:33 | a last segment without a dot has no extension, whatever the directories are called |
| Generator.LowerIsSvg | src/generator.js:33-34 | lower-casing an extension gives `.svg` exactly when it is `.svg` in some letter case |
| Generator.IsSvgExtension | src/generator.js:33-34 | the `.svg` test in any letter case; its properties are `LowerIsSvg` and `PinnedTabBranch` |
| Generator.PinnedTab | src/generator.js:33-46 | what generateSafariPinnedTab writes; the lemmas below state the branch |
| Generator.PinnedTabBranch | src/generator.js:33-46 | the source is copied exactly when the lower-cased extension is `.svg`; otherwise a 512 px silhouette thresholded at 200 is wrapped |
| Generator.PinnedTabOfFile | src/generator.js:33-46 | `logo.svg`, `LOGO.SVG` and every other letter case are copied; any other extension is wrapped |
| Generator.PinnedTabWithoutExtension | src/generator.js:33-46 | a file called `.svg`, or a name without a dot, is wrapped and not copied |
| Generator.IcoBuffers | src/generator.js:21-27 | the loop yields one PNG per size 16, 32, 48, in order, each flattened onto the background colour |
| Generator.Asset | src/generator.js:88-127 | what each of the twelve outputs holds; the catalogue lemmas below state it |
| Generator.Writes | src/generator.js:101-127 | the twelve writes in program order; `WritesNames` states their names and contents |
| Generator.FileNamesDistinct | src/generator.js:88-99 | the twelve file names are pairwise distinct; the write order lists twelve distinct outputs |
| Generator.EveryOutputWritten | src/generator.js:101-127 | every output is in the write order |
| Generator.Position | src/generator.js:101-127 | each output has its place in the write order |
| Generator.WritesNames | src/generator.js:88-127 | twelve writes to twelve distinct names; output `f` is written at its place with its catalogue content |
| Generator.AssetNames | src/generator.js:88-127 | into an empty directory, the result is exactly the twelve names |
| Generator.GeneratedFiles | src/generator.js:78-128 | afterwards the directory holds each output under its name with its content, and every other old file unchanged |
| Generator.ManifestTwins | src/generator.js:123-124 | manifest.json and site.webmanifest hold the same manifest |
| Generator.RasterCatalogue | src/generator.js:101-106 | the standalone PNGs follow the size/flatten table; a raster output is flattened if and only if it is the apple-touch icon or the tile |
| Generator.IcoContents | src/generator.js:107 | the ICO holds 3 buffers at sizes 16, 32, 48, each flattened onto the background colour |
| Generator.TextOf | src/generator.js:44-75 | the text written at lines 45, 55 and 75 (the pinned-tab wrapper, browserconfig.xml, meta-tags.html); its properties are `PinnedTabText`, `TextOutputs`, `TextContents` and `ParametersReachFiles` |
| Generator.TextOutputs | src/generator.js:108-127 | the outputs whose text this model builds are exactly browserconfig.xml, meta-tags.html and, for a non-SVG source, safari-pinned-tab.svg |
| Generator.TextContents | src/generator.js:126-127 | the tile colour read back from browserconfig.xml is the theme colour; meta-tags.html is the page for the resolved name and colour |
| Generator.PinnedTabText | src/generator.js:32-45 | for an `.svg` source (any letter case) safari-pinned-tab.svg is a copy; for any other source its text is the wrapper around the base64 silhouette, which declares width and height 512 and viewBox `0 0 512 512`, embeds `data:image/png;base64,` + payload, and gives the payload back |
| Generator.ManifestIconsResolve | src/generator.js:113-116 | the manifest icons name the two Android PNGs at the sizes they are rendered at |
| Generator.RerunIdempotent | src/generator.js:78-128 | generating again into the same directory changes nothing |
| Generator.ParametersReachFiles | src/generator.js:78-128 | given values reach the manifest fields, `<TileColor>` in browserconfig.xml and the content attributes of meta-tags.html verbatim |
| Generator.OutputDir.EnsureDir | src/generator.js:6-8 | `mkdir -p`: the directory exists afterwards and its files are untouched |
| Generator.OutputDir.WriteFile | src/generator.js:48-51 | writing a file replaces that one entry and nothing else |
| Generator.GeneratePng | src/generator.js:10-17 | writes one PNG of the given size, flattened only when the option holds a non-empty colour |
| Generator.GenerateFaviconIco | src/generator.js:19-30 | writes the ICO of the three flattened buffers |
| Generator.GenerateSafariPinnedTab | src/generator.js:32-46 | writes a copy of an `.svg` source (any letter case) and the wrapped silhouette otherwise |
| Generator.WriteManifest | src/generator.js:48-51 | writes the manifest record |
| Generator.WriteBrowserConfig | src/generator.js:53-56 | writes browserconfig.xml for the tile colour |
| Generator.WriteMetaTags | src/generator.js:58-76 | writes meta-tags.html for the name and colour |
| Generator.GenerateAssets | src/generator.js:78-128 | the directory is created, then holds the old files overlaid with the twelve writes in order |
| Cli.Acceptable | bin/cli.js:26-29 | the next element is present, non-empty and not dash-prefixed; its properties are `ValueAfterSpec`, `ValueAfterIff` and `FlagBeforeDash` |
| Cli.ValueAfter | bin/cli.js:25-26 | a value found is an element of argv, non-empty and not starting with `-` |
| Cli.GetArg | bin/cli.js:24-32 | the same for the result, which comes from the long flag's lookup or, if the short flag is given, from its lookup |
| Cli.IndexOfFirst | bin/cli.js:25 | `indexOf` returns the first position of the flag, and -1 exactly when it is absent |
| Cli.ValueAfterSpec | bin/cli.js:25-26 | with the flag first at `i`, the lookup gives `argv[i+1]` if it is present, non-empty and not dash-prefixed, and nothing otherwise |
| Cli.ValueAfterAbsent | bin/cli.js:25-26 | an absent flag gives nothing |
| Cli.ValueAfterIff | bin/cli.js:25-26 | a value is found if and only if the element after the flag's first occurrence is acceptable |
| Cli.FlagAtEnd | bin/cli.js:26 | a flag that is the last argument gives nothing |
| Cli.FlagBeforeDash | bin/cli.js:26 | a flag followed by a dash-prefixed argument gives nothing |
| Cli.OnlyFirstOccurrence | bin/cli.js:25-29 | a later valid `flag value` pair is ignored when the first occurrence is followed by a dash-prefixed argument |
| Cli.OnlyFirstOccurrenceExample | bin/cli.js:25-26 | `--name -x --name Site` leaves the name undefined |
| Cli.LongFlagWins | bin/cli.js:26-30 | a valid long flag is returned whatever the short flag says |
| Cli.ShortFlagFallback | bin/cli.js:26-31 | the short flag decides only when the long lookup fails; without a short flag only the long one counts |
| Cli.CliParams | bin/cli.js:41-67 | the input path is passed on; every other parameter is non-empty |
| Cli.WantsHelp | bin/cli.js:36 | `argv.includes('--help') or argv.includes('-h')`; its property is `HelpFirst` |
| Cli.Decide | bin/cli.js:34-73 | the top-level decision; `HelpFirst`, `MissingInput`, `InputNotFound` and `GenerateWith` state its outcomes |
| Cli.ExitCode | bin/cli.js:36-72 | exit 0 exactly for help and generation; otherwise exit 1 |
| Cli.HelpFirst | bin/cli.js:36-39 | the outcome is help if and only if `--help` or `-h` appears anywhere; exit 0 |
| Cli.MissingInput | bin/cli.js:41-52 | a usage error exactly when there is no help flag and no input value |
| Cli.InputNotFound | bin/cli.js:54-57 | not-found exactly when there is no help flag and the input value names no existing path |
| Cli.GenerateWith | bin/cli.js:41-67 | generation only for an existing input and no help flag; the output defaults to `./dist`; the values reaching the generator are the looked-up ones or `Website`, `App`, `#ffffff`, so its own defaulting changes nothing |
| Cli.DefaultsWhenAbsent | bin/cli.js:42-46 | without any optional flag, every optional value takes its default |
| Cli.DefaultsExample | bin/cli.js:41-46 | `--input logo.png` on an existing file generates with `./dist`, `Website`, `App`, `#ffffff`, `#ffffff` |

## Left out

- Image processing. `sharp` (resize with fit `contain` on transparent padding, flatten, threshold, PNG encoding) is a foreign library; each of its results is an `Artifact` descriptor.
- ICO packing. `png-to-ico` is also foreign, so `Ico(buffers)` records its input in order.
- Base64. `Buffer.toString('base64')` is kept opaque: it is the `base64` parameter of `TextOf`, so the pinned-tab text is `PinnedTabSvg` of whatever that encoder gives for the PNG, and `PinnedTabSvg` is modelled exactly for any payload.
- JSON. `JSON.stringify(data, null, 2)` is not modelled: its escaping and indentation are left out, and `Json(manifest)` holds the record. Equal records give equal files.
- File system.
  - `fs.mkdir`, `writeFile`, `copyFile` and `toFile` are updates to `OutputDir.files`, keyed by bare file name.
  - `fs.existsSync` is the set `existing` given to `Cli.Decide`.
  - Failures of these calls are not modelled, nor is the partial output they would leave.
- Paths. `path.join` and `path.resolve` depend on the platform and the working directory, so they are not modelled. The generator keys outputs by bare name, and the command line passes the input and output paths on verbatim.
- Generator.Extname: POSIX separators only. Windows drive letters and backslashes are not modelled.
- Strings.Lower: only ASCII letters are lowered. Other characters pass through unchanged, unlike JavaScript's full Unicode `toLowerCase`.
- Runtime and output. `async`/`await` sequencing is not modelled; the steps run in program order. The console output, the French help and error texts, and `process.exit` are reduced to the `Outcome` tags and `ExitCode`.
- Cli.ExitCode: a failure inside `generateAssets` (the `catch` branch, exit 1) is not modelled; `Generate` counts as exit 0.
- `process.argv.slice(2)`: `argv` is already the list after the program name.
