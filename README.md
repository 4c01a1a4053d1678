# free-cluely-linux screenshot and provider core, in Dafny

This project models the core of free-cluely-linux, an Electron desk assistant.

- **Screenshot queues.** The app keeps two bounded queues of screenshot files, one per view: "queue" holds the problem screenshots and "solutions" the debugging ones. A capture adds to the current view's queue and evicts the oldest entry past five. Screenshots can be deleted one at a time, both queues can be cleared, and a file can be previewed as a data URI.
- **X11 monitors.** On X11 the app reads the monitor list from `xrandr --query` and crops one monitor with ImageMagick's `import`.
- **Electron monitors.** The app offers Electron's monitor list and picks a `desktopCapturer` source for one monitor.
- **Configuration.** It keeps an application configuration: the model provider and the selected monitor.
- **Provider factory.** The factory checks API keys and lists providers and models.
- **Fence stripping.** The provider base class strips a Markdown fence from a JSON answer.

## Modules and files

| file | module | what it holds |
|---|---|---|
| `outcomes.dfy` | `Outcomes` | `Option`, `Result` (an error carries the thrown message), bytes |
| `text.dfy` | `Text` | JavaScript string primitives: the `\s` white-space class and `trim`, `split`/`join`, `parseInt` on digit strings and number-to-decimal-text |
| `base64.dfy` | `Base64` | the base64 encoding of section 4 of RFC 4648, used by the image preview |
| `model_provider.dfy` | `ModelProvider` | `ModelProviderConfig` and `cleanJsonResponse` |
| `config_manager.dfy` | `ConfigManager` | defaults, load-time merge, the `ConfigManager` class and its getters and setters |
| `model_provider_factory.dfy` | `ModelProviderFactory` | `createProvider`, the default config, the provider and model tables |
| `host_system.dfy` | `HostSystem` | the outside world of the screenshot manager: the files, the window hooks and the capture library, recorded call by call |
| `screenshots.dfy` | `Screenshots` | the `ScreenshotHelper` class and the queue specification functions |
| `x11_screenshot.dfy` | `X11Screenshot` | the xrandr line recogniser, the monitor listing loop and the `import` commands |
| `electron_screenshot.dfy` | `ElectronScreenshot` | the Electron monitor listing and the choice of capture source |

## Modelling decisions

**The screenshot helper is a class.**
- The class has the two queues and the view as `seq` and enum fields.
- The directories, the platform and the configuration manager are constants.
- The host is a second class. It holds a map from file path to contents and one trace of the window-hook and capture-library calls, so the contracts can say what was called, in which order and with what options.
- A capture's result (a PNG, or a thrown message) is a parameter of `TakeScreenshot`.
- The uuid is a parameter too.

**The monitor listing follows the source's shape.**
- `getX11Displays` is a method with the source's loop. Its result is tied to the function `Displays`.
- The regular expression `^(\S+)\s+connected\s+(primary\s+)?(\d+x\d+\+\d+\+\d+)` is recognised by `ParseLine`.
- `ParseLine` is proved sound and complete against `Render` over well-formed parts. A line is matched exactly when it is the rendering of well-formed parts, and the parts are then its captures.
- Greedy matching with `^` and no flags leaves the pattern only one way to match, and `ParseLine` takes that way.

**Outside I/O is passed in as values.**
- The stdout of `xrandr`, how `import` and `which` end, and whether the output file exists afterwards are all parameters.
- So are Electron's monitor list, the capture sources and how writing the file ends.

**JavaScript values.**
- An object spread over a `Partial<...>` is a patch whose fields are `Keep` (key absent) or `Put(v)`.
- A falsy API key is `None` or `""`.
- `\s` and `trim` use the ECMAScript white-space set; `\d` is ASCII.
- `$` without the `m` flag matches only at the end of the input.
- `selectedMonitor` may be `undefined`, `null` (JSON can hold it), an integer, or `NaN`. The monitor settings store `parseInt` of the chosen monitor id (src/components/Settings/ScreenshotSettings.tsx:42). On X11 the offered ids are output names such as `DisplayPort-1` (electron/ipcHandlers.ts:184), which give `NaN`. That `NaN` is neither `undefined` nor `null`, so it is passed on as `screen`.

## Model

| member | source | states |
|---|---|---|
| `Screenshots.CaptureOptionsFor` | electron/ScreenshotHelper.ts:101-113 | the options carry the file name. They carry `screen` exactly when the configured monitor is neither undefined nor null, and then it is that monitor. They carry `format: "png"` exactly on Linux |
| `Screenshots.Admit` | electron/ScreenshotHelper.ts:117-127 | the new path is the last entry. Below five entries the queue is extended by it; at five or more the front entry is dropped and the rest keep their order. A queue within the bound stays within it |
| `Screenshots.Evicted` | electron/ScreenshotHelper.ts:118-119 | an entry is pushed out exactly when the queue already holds five, and it is the former front entry |
| `Screenshots.AdmitNewest` | electron/ScreenshotHelper.ts:117-127 | admitting a path to the newest five entries of a history gives the newest five of the history extended by that path |
| `Screenshots.AdmitAllNewest` | electron/ScreenshotHelper.ts:117-127 | after any series of captures, a queue holds exactly the newest (at most five) paths ever admitted, oldest first |
| `Screenshots.CapturesKeepNewest` | electron/ScreenshotHelper.ts:148-158 | a queue within its bound stays within it through any series of captures, and ends up holding the newest entries of its old contents followed by the new paths |
| `Screenshots.Without` | electron/ScreenshotHelper.ts:180-188 | the filtered queue holds exactly the entries different from the path, and is no longer than the queue |
| `Screenshots.WithoutAppend` | electron/ScreenshotHelper.ts:180-188 | filtering distributes over concatenation, so the remaining entries keep their order |
| `Screenshots.WithoutCount` | electron/ScreenshotHelper.ts:180-188 | every occurrence of the path is removed and nothing else: the length drops by the number of occurrences, and every other path keeps its multiplicity |
| `Screenshots.WithoutAbsent` | electron/ScreenshotHelper.ts:180-188 | filtering out a path that is not in the queue leaves it unchanged |
| `Screenshots.WithoutIdempotent` | electron/ScreenshotHelper.ts:180-188 | filtering twice is filtering once |
| `Screenshots.PreviewUri` | electron/ScreenshotHelper.ts:168 | the preview starts with `data:image/png;base64,`, continues with the base64 text of the file, and has four characters per started group of three bytes after the prefix |
| `Screenshots.JoinPath` | electron/ScreenshotHelper.ts:98 | (see `Screenshots.ScreenshotHelper.constructor` and `TakeScreenshot`) a file name joined to a directory with `/` |
| `Screenshots.PushBounded` | electron/ScreenshotHelper.ts:117-127 | the queue becomes `Admit` of the old queue. The file of the evicted entry, if any and if its path is non-empty, is unlinked, and no other file changes. An unlink failure is ignored |
| `Screenshots.ScreenshotHelper.constructor` | electron/ScreenshotHelper.ts:21-31 | the directories are `screenshots` and `extra_screenshots` under the user-data directory, both queues start empty, and the given view is kept |
| `Screenshots.ScreenshotHelper.GetView` | electron/ScreenshotHelper.ts:41-43 | answers the current view |
| `Screenshots.ScreenshotHelper.SetView` | electron/ScreenshotHelper.ts:45-47 | sets the view and changes nothing else |
| `Screenshots.ScreenshotHelper.GetScreenshotQueue` | electron/ScreenshotHelper.ts:49-51 | answers the problem queue |
| `Screenshots.ScreenshotHelper.GetExtraScreenshotQueue` | electron/ScreenshotHelper.ts:53-55 | answers the solutions queue |
| `Screenshots.ScreenshotHelper.ClearQueues` | electron/ScreenshotHelper.ts:57-78 | both queues end empty whatever the unlinks do. Exactly the files named in either queue are removed |
| `Screenshots.ScreenshotHelper.TakeScreenshot` | electron/ScreenshotHelper.ts:80-163 | the trace gains the hide-window call, then exactly one capture call with the options for `<view dir>/<uuid>.png`, in that order. If the capture throws, the error propagates, both queues are unchanged, no file changes (given the capture library's contract, see `HostSystem.Host.Screenshot` under Left out), and nothing more is called, so the window is not shown again. On success: the file holds the PNG; the current view's queue is `Admit`ted the path; the other queue is unchanged; the evicted file is unlinked; the show-window call comes last in the trace; and the path is answered. Both queues stay within the bound |
| `Screenshots.ScreenshotHelper.GetImagePreview` | electron/ScreenshotHelper.ts:165-173 | an existing file gives its data URI, and a missing file gives the read error |
| `Screenshots.ScreenshotHelper.DeleteScreenshot` | electron/ScreenshotHelper.ts:175-194 | the file is gone afterwards. When it existed, the answer is `{success: true}`, every occurrence of the path leaves the current view's queue and the other queue is unchanged. When it did not, the answer is `{success: false, error}` with the unlink message and no queue changes. The bound is kept |
| `Screenshots.DeleteTwice` | electron/ScreenshotHelper.ts:175-194 | deleting a path twice: the second call answers a failure with the missing-file message instead of throwing; after a successful first call the current queue no longer holds the path; the file is gone |
| `HostSystem.Host.Unlink` | electron/ScreenshotHelper.ts:179 | the file is removed; the call fails with the missing-file message exactly when there was no such file |
| `HostSystem.Host.ReadFile` | electron/ScreenshotHelper.ts:167 | an existing file's contents, otherwise the missing-file error |
| `HostSystem.Host.Screenshot` | electron/ScreenshotHelper.ts:115 | the call is appended to the trace with its options. A capture writes the PNG to the named file; a throw changes no file and propagates its message |
| `HostSystem.Host.CallWindowHook` | electron/ScreenshotHelper.ts:84 | the hook call is appended to the trace |
| `HostSystem.NoSuchFile` | electron/ScreenshotHelper.ts:179 | (see `HostSystem.Host.Unlink`) the message of a failed unlink or read of a missing file, which `deleteScreenshot` answers as its `error` |
| `X11Screenshot.ParseLine` | electron/X11ScreenshotHelper.ts:27 | (see `ParseLineSound` and `ParseLineComplete`) the match of `^(\S+)\s+connected\s+(primary\s+)?(\d+x\d+\+\d+\+\d+)` on one line, as its captures |
| `X11Screenshot.ParseLineSound` | electron/X11ScreenshotHelper.ts:27-29 | a matched line is a non-space name, white space, `connected`, white space, an optional `primary` plus white space, then `W x H + X + Y` digit runs and any rest, in that order |
| `X11Screenshot.ParseLineComplete` | electron/X11ScreenshotHelper.ts:27-29 | every line of that shape is matched, with exactly those parts as its captures |
| `X11Screenshot.DisconnectedSkipped` | electron/X11ScreenshotHelper.ts:26-28 | a `disconnected` output line yields no monitor |
| `X11Screenshot.IndentedSkipped` | electron/X11ScreenshotHelper.ts:26-28 | a mode line (one starting with white space) yields no monitor |
| `X11Screenshot.GeometryPieces` | electron/X11ScreenshotHelper.ts:30-32 | splitting the matched geometry on `+` gives `WxH`, `X` and `Y` |
| `X11Screenshot.DisplayOf` | electron/X11ScreenshotHelper.ts:29-40 | the entry has the matched name and the resolution `WxH`. Its offset is `+X+Y` with X and Y read as decimal numbers and written back. `primary` holds exactly when the `primary` token is present. `connected` is true |
| `X11Screenshot.DisplayGeometry` | electron/X11ScreenshotHelper.ts:29-37 | for offsets printed without leading zeros, resolution followed by offset is the geometry xrandr printed |
| `X11Screenshot.LineDisplay` | electron/X11ScreenshotHelper.ts:27-40 | a line yields at most one monitor, and it is connected |
| `X11Screenshot.LineDisplayOf` | electron/X11ScreenshotHelper.ts:27-40 | a well-formed line yields the monitor `DisplayOf` builds from its parts |
| `X11Screenshot.CollectMember` | electron/X11ScreenshotHelper.ts:25-42 | an entry is collected exactly when some line yields it |
| `X11Screenshot.CollectAppend` | electron/X11ScreenshotHelper.ts:25-42 | the entries of two runs of lines are those of the first run followed by those of the second, so entries come in line order |
| `X11Screenshot.DisplaysMember` | electron/X11ScreenshotHelper.ts:22-45 | a monitor is listed exactly when some output line yields it, and every listed monitor is connected |
| `X11Screenshot.GetX11Displays` | electron/X11ScreenshotHelper.ts:19-50 | the loop over the newline-split output answers `Displays` of the lines, in line order. A failure to run xrandr propagates |
| `X11Screenshot.FindIndex` | electron/X11ScreenshotHelper.ts:55 | the first monitor with the name, or past the end when none has it |
| `X11Screenshot.CropCommand` | electron/X11ScreenshotHelper.ts:63 | (see `CaptureDisplay` and `CaptureCropsListedGeometry`) `import -window root -crop <geometry> "<path>"` |
| `X11Screenshot.RootCommand` | electron/X11ScreenshotHelper.ts:87 | (see `CaptureAllDisplays`) `import -window root "<path>"`, with no crop |
| `X11Screenshot.CaptureDisplay` | electron/X11ScreenshotHelper.ts:52-82 | an xrandr failure propagates. An unknown name fails with `Display <name> not found` before any command runs. Otherwise the command crops `resolution + offset` of the first monitor with the name. Success holds exactly when a command ran, it succeeded and the output file exists. When the command fails its error propagates; when it succeeds but the file is missing the error is `Screenshot file was not created` |
| `X11Screenshot.FindPastPrefix` | electron/X11ScreenshotHelper.ts:55 | the search skips entries with other names and stops at the first with the name |
| `X11Screenshot.CaptureCropsListedGeometry` | electron/X11ScreenshotHelper.ts:54-63 | capturing a monitor whose line prints canonical offsets, and which no earlier line names, crops exactly the geometry xrandr printed for it |
| `X11Screenshot.CaptureAllDisplays` | electron/X11ScreenshotHelper.ts:84-106 | the command captures the whole root window without a crop. Success holds exactly when it succeeded and the output file exists. When the command fails its error propagates; when it succeeds but the file is missing the error is `Screenshot file was not created` |
| `X11Screenshot.IsImageMagickAvailable` | electron/X11ScreenshotHelper.ts:108-115 | true exactly when `which import` succeeded and printed something other than white space |
| `ElectronScreenshot.DisplayName` | electron/ElectronScreenshotHelper.ts:15 | (see `DisplayNumberOfName` and `ListedNamesDistinct`) `Display <index+1> (<w>x<h>)` |
| `ElectronScreenshot.ListDisplays` | electron/ElectronScreenshotHelper.ts:11-19 | one entry per monitor, in order. Entry i has index i, the monitor's id and bounds, and the name `Display <i+1> (<w>x<h>)` |
| `ElectronScreenshot.DisplayNumberOfName` | electron/ElectronScreenshotHelper.ts:15 | the number read back from a listed name is the position plus one |
| `ElectronScreenshot.ListedNamesDistinct` | electron/ElectronScreenshotHelper.ts:13-18 | two entries of the list never share a name |
| `ElectronScreenshot.FindDisplayIndex` | electron/ElectronScreenshotHelper.ts:52 | the first position with the id, or -1 exactly when no monitor has it |
| `ElectronScreenshot.FindSource` | electron/ElectronScreenshotHelper.ts:43-48 | the first source whose `display_id` is the id in decimal or whose id is `screen:<id>` (any source when there is only one), or the length of the list |
| `ElectronScreenshot.SelectSource` | electron/ElectronScreenshotHelper.ts:43-65 | no source is chosen exactly when the list is empty, and a chosen source is one of the list |
| `ElectronScreenshot.SelectSingle` | electron/ElectronScreenshotHelper.ts:47 | with one source, that source is chosen |
| `ElectronScreenshot.SelectNamed` | electron/ElectronScreenshotHelper.ts:43-48 | the first source that names the monitor is chosen |
| `ElectronScreenshot.SelectByPosition` | electron/ElectronScreenshotHelper.ts:51-56 | when no source names the monitor and the counts agree, the source at the monitor's position is chosen |
| `ElectronScreenshot.SelectFallback` | electron/ElectronScreenshotHelper.ts:58-61 | when no source names the monitor and the counts differ, the first source is chosen |
| `ElectronScreenshot.CaptureDisplay` | electron/ElectronScreenshotHelper.ts:21-77 | an unknown id fails with `Display with ID <id> not found`. A `getSources` failure propagates. An empty source list fails with `No screen sources available`. Success holds exactly when the monitor is known, sources exist and the write succeeds; a failed write answers its own error. The PNG written is that of the source `SelectSource` picks by the three tiers |
| `ElectronScreenshot.CaptureAllDisplays` | electron/ElectronScreenshotHelper.ts:79-101 | it fails exactly when getting the sources fails, there are none, or the write fails, and each failure answers its own error. Otherwise it writes the first source's PNG |
| `ElectronScreenshot.SingleScreenCapturesAgree` | electron/ElectronScreenshotHelper.ts:43-96 | with one monitor and one source, capturing that monitor and capturing everything write the same image |
| `ModelProvider.StripOpeningFence` | electron/ModelProvider.ts:41 | a leading ```` ```json\n ```` or ```` ```\n ```` at the very start is removed, once; text starting with neither is unchanged |
| `ModelProvider.StripClosingFence` | electron/ModelProvider.ts:41 | a trailing ```` \n``` ```` at the very end is removed, once; text not ending with it is unchanged |
| `ModelProvider.CleanJsonResponse` | electron/ModelProvider.ts:39-45 | the result has no white space at either end and is no longer than the input |
| `ModelProvider.FencedJsonCleaned` | electron/ModelProvider.ts:41-44 | ```` ```json\n ```` + s + ```` \n``` ```` comes out as `trim(s)` |
| `ModelProvider.FencedPlainCleaned` | electron/ModelProvider.ts:41-44 | ```` ```\n ```` + s + ```` \n``` ```` comes out as `trim(s)` |
| `ModelProvider.UnfencedTrimmed` | electron/ModelProvider.ts:41-44 | text with no opening fence at the start and no closing fence at the end is only trimmed |
| `ModelProvider.DoubleFenceStrippedOnce` | electron/ModelProvider.ts:41 | each fence is removed at most once: a doubly fenced block keeps its inner fences |
| `ModelProvider.IndentedFenceKept` | electron/ModelProvider.ts:41-43 | fences are removed before trimming, so an opening fence after leading white space stays in the result |
| `ConfigManager.MergeProvider` | electron/ConfigManager.ts:105-108 | (see `MergeProviderOverrides`, `MergeProviderNeutralIdempotent` and `MergeProviderCompose`) `{...base, ...patch}` on a provider section |
| `ConfigManager.MergeScreenshot` | electron/ConfigManager.ts:124-127 | (see `MergeScreenshotLaws`) `{...base, ...patch}` on a screenshot section |
| `ConfigManager.MergeProviderOverrides` | electron/ConfigManager.ts:104-108 | a spread overrides exactly the keys present in the patch and keeps the others |
| `ConfigManager.MergeProviderNeutralIdempotent` | electron/ConfigManager.ts:104-108 | an empty patch changes nothing, and applying a patch twice is applying it once |
| `ConfigManager.MergeProviderCompose` | electron/ConfigManager.ts:104-108 | two successive updates are one update in which the later keys win |
| `ConfigManager.MergeScreenshotLaws` | electron/ConfigManager.ts:123-127 | the same laws for the screenshot section |
| `ConfigManager.DefaultConfig` | electron/ConfigManager.ts:24-35 | provider `gemini`, model `gemini-2.0-flash`, no base URL, the key `GEMINI_API_KEY \|\| ''`, no selected monitor |
| `ConfigManager.LoadConfig` | electron/ConfigManager.ts:37-63 | a missing or unusable file gives the defaults. A saved file is merged over the defaults field by field in each section |
| `ConfigManager.LoadConfigMerges` | electron/ConfigManager.ts:44-56 | a saved file that sets nothing loads as the defaults. One that sets every provider field loads exactly those values |
| `ConfigManager.ResolveApiKey` | electron/ConfigManager.ts:83-102 | a truthy key is kept. A falsy one is replaced by `GEMINI_API_KEY` for gemini and by `REDHAT_API_KEY` for redhat. Ollama and other providers are left unchanged. No other field changes |
| `ConfigManager.ResolveApiKeyIdempotent` | electron/ConfigManager.ts:83-102 | filling the key a second time changes nothing more |
| `ConfigManager.ConfigManager.constructor` | electron/ConfigManager.ts:19-22 | the stored configuration is the loaded one |
| `ConfigManager.ConfigManager.GetConfig` | electron/ConfigManager.ts:79-81 | answers the stored configuration |
| `ConfigManager.ConfigManager.GetModelProviderConfig` | electron/ConfigManager.ts:83-102 | answers the stored provider section with its key resolved, and changes nothing |
| `ConfigManager.ConfigManager.SetModelProviderConfig` | electron/ConfigManager.ts:104-110 | the provider section becomes the merge of the patch over it; the screenshot section is unchanged |
| `ConfigManager.ConfigManager.UpdateApiKey` | electron/ConfigManager.ts:112-117 | when the provider is the current one, only `apiKey` changes; otherwise nothing changes |
| `ConfigManager.ConfigManager.GetScreenshotConfig` | electron/ConfigManager.ts:119-121 | answers the stored screenshot section |
| `ConfigManager.ConfigManager.SetScreenshotConfig` | electron/ConfigManager.ts:123-129 | the screenshot section becomes the merge of the patch over it; the provider section is unchanged |
| `ModelProviderFactory.CreateProvider` | electron/ModelProviderFactory.ts:7-27 | gemini and redhat are built exactly when the key is truthy, and ollama always. A missing key fails with `API key is required for Gemini provider` or `API key is required for Red Hat Model as a Service`. Any other provider fails with `Unsupported provider: <provider>` |
| `ModelProviderFactory.DefaultConfig` | electron/ModelProviderFactory.ts:29-34 | provider `gemini` and model `gemini-2.0-flash`, with no key and no base URL |
| `ModelProviderFactory.AvailableProviders` | electron/ModelProviderFactory.ts:36-42 | three entries (see `ProviderMenuAgreesWithFactory`) |
| `ModelProviderFactory.ModelOptions` | electron/ModelProviderFactory.ts:44-63 | a non-empty list exactly for gemini, redhat and ollama, and `[]` for any other provider |
| `ModelProviderFactory.ProviderMenuAgreesWithFactory` | electron/ModelProviderFactory.ts:7-42 | the menu lists exactly the providers the factory supports. `requiresApiKey` is true exactly for those the factory refuses without a key |
| `ModelProviderFactory.MenuProvidersHaveModels` | electron/ModelProviderFactory.ts:36-63 | every provider on the menu has models to choose from |
| `ModelProviderFactory.DefaultModelIsFirstOption` | electron/ModelProviderFactory.ts:29-47 | the factory's and the configuration's defaults agree, and their model is the first gemini option |
| `ModelProviderFactory.ResolvedConfigAccepted` | electron/ModelProviderFactory.ts:9-22 | after the key is filled from the environment, gemini and redhat are accepted exactly when the stored key or the provider's variable is truthy, and ollama always |
| `Text.Trim` | electron/ModelProvider.ts:43 | the result has no white space at either end; it is the part of the input after its leading white-space run, and only white space follows it |
| `Text.TrimKeeps` | electron/ModelProvider.ts:43 | a string with no white space at either end is its own trim |
| `Text.TrimIdempotent` | electron/ModelProvider.ts:43 | trimming twice is trimming once |
| `Text.TrimEmpty` | electron/X11ScreenshotHelper.ts:111 | the trim is empty exactly when the string is all white space |
| `Text.Split` | electron/X11ScreenshotHelper.ts:22 | at least one piece, and no piece holds the separator |
| `Text.JoinSplit` | electron/X11ScreenshotHelper.ts:22 | joining the pieces with the separator gives the input back, so splitting loses nothing |
| `Text.SplitJoin` | electron/X11ScreenshotHelper.ts:22 | splitting the join of separator-free pieces gives the pieces back |
| `Text.SplitAt` | electron/X11ScreenshotHelper.ts:30 | a separator-free piece followed by the separator splits off as the first piece |
| `Text.DecimalValue` | electron/X11ScreenshotHelper.ts:31-32 | (see `DecimalOfShow` and `ShowOfDecimal`) `parseInt` of a run of decimal digits |
| `Text.ShowNat` | electron/X11ScreenshotHelper.ts:37 | the decimal text of a natural number: non-empty digits with no leading zero |
| `Text.ShowInt` | electron/ElectronScreenshotHelper.ts:45-46 | the decimal text of an integer, with `-` before a negative one |
| `Text.DecimalOfShow` | electron/X11ScreenshotHelper.ts:31-37 | reading back the decimal text of a number gives the number |
| `Text.ShowOfDecimal` | electron/X11ScreenshotHelper.ts:31-37 | a digit run without a leading zero is the decimal text of its value |
| `Base64.Encode` | electron/ScreenshotHelper.ts:168 | four characters per started group of three bytes |
| `Base64.EncodeAlphabet` | electron/ScreenshotHelper.ts:168 | the encoding uses only the alphabet of section 4 of RFC 4648 and `=` |

## Left out

- Directory creation (electron/ScreenshotHelper.ts:33-38) is not modelled: the directories are taken to exist, and the file map is flat.
- `saveConfig` (electron/ConfigManager.ts:65-77) writes JSON to disk. That is I/O and is not modelled, so the setters change only the stored configuration.
- The 200 ms delay on Linux (electron/ScreenshotHelper.ts:87-89) is timing and is not modelled.
- The thumbnail size from the floating-point `scaleFactor` (electron/ElectronScreenshotHelper.ts:32-38) is not modelled. The capture sources are a parameter.
- `ClearQueues`: the source fires the unlinks asynchronously and only logs their failures. The model runs them one after the other, so it does not capture the unlinks finishing after the queues are emptied.
- `HostSystem.Host.Unlink` fails only for a missing file. Other file-system errors (permissions, a directory) are not modelled.
- `X11Screenshot.CaptureDisplay` and `X11Screenshot.CaptureAllDisplays` do not model the stderr check (`Warning`), because it only logs. Console logging is left out everywhere.
- `HostSystem.Host.Screenshot` assumes that a capture which throws has written no file. The source does no cleanup after a throwing capture (electron/ScreenshotHelper.ts:115, 146), so a library that wrote the file and then failed would leave a file that is in no queue. The model does not cover that case.
- `Screenshots.ScreenshotHelper.TakeScreenshot` takes the uuid as a parameter. It does not assume the generated name is fresh: a clash simply overwrites the file, as the capture library would.
- `Screenshots.JoinPath` is `dir + "/" + name`. Path normalisation by `path.join` (double slashes, `..`) is not modelled.
- `X11Screenshot.DisplayGeometry` and `X11Screenshot.CaptureCropsListedGeometry` hold only for offsets printed without leading zeros. `parseInt` drops leading zeros, so for `+007` the cropped geometry is `+7`, which `import` reads the same.
- `Text.DecimalValue` is exact for any number of digits. JavaScript's `parseInt` loses precision past 2^53. Strings are sequences of characters, not UTF-16 code units.
- `ConfigManager.LoadConfig` does not model JSON parsing. Keys outside the two sections, values of the wrong type and a saved `null` are left out; a parse failure is the `Unreadable` case. A `null` API key is folded into `None`.
- `ConfigManager.ConfigManager.GetConfig`, `Screenshots.ScreenshotHelper.GetScreenshotQueue` and `Screenshots.ScreenshotHelper.GetExtraScreenshotQueue` answer values. In the source, `getConfig` makes a shallow copy that shares the `modelProvider` object, and the queue getters answer the live arrays. The aliasing this allows (a later `updateApiKey` or push showing through an earlier result) is not modelled.
- Electron display ids are modelled as integers, and `toString` as decimal text with a leading `-` for negatives.
- `ElectronScreenshot.CaptureDisplay` answers the PNG it writes rather than modelling the file system, and a failing write is a parameter.
- Each asynchronous method is modelled as one atomic step. In the source, `setView`, `deleteScreenshot` and `clearQueues` can run while `takeScreenshot` waits. It waits on the 200 ms delay (electron/ScreenshotHelper.ts:88), on the capture (115, 146) and on the eviction unlink (122, 153), and it reads `view` only after the delay. The model does not capture those interleavings, for example a capture that lands in the other view's queue or a queue cleared mid-capture.
- `selectedMonitor` values other than undefined, null, integers and `NaN` are not modelled, for example fractions or infinities, which the settings page cannot produce. `saveConfig` would write `NaN` as `null`, and saving is not modelled.
- The fallback capture chain that the monitor settings suggest (X11, then Electron, then the library) does not exist in `takeScreenshot`. It calls `screenshot-desktop` exactly once, and the model follows that code.
- electron/ipcHandlers.ts, electron/LLMHelper.ts, the provider classes under electron/providers/, and the React files under src/ are not part of this model. They are IPC plumbing, delegation, HTTP/SDK clients and UI wiring.
