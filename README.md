# yogs-tts request handler, modelled in Dafny

This project models `AppService.getTTS` of the yogs-tts text-to-speech service
(`src/app.service.ts`). The handler takes a voice model name, a pitch and a
message. It sanitises them and resolves the voice to a model file of the first
quality tier (low, medium, high) whose directory exists. It derives an MD5 cache
key and serves `./piper_cache/<key>.wav` if that file exists. Otherwise it runs
the `piper` synthesis engine and then `ffmpeg` to shift the pitch. It unlinks
the raw file, schedules the pitched `<key>-f.wav` for deletion after two
minutes, and streams it.

The filesystem is the set of paths that exist; a directory is its path with a
trailing `/`. The two engines are opaque. Each run is a `ProcessRun`: whether
the process exited with status 0, whether it wrote its output file, and its
stdout and stderr. MD5 is an arbitrary function from text to text. The host
state is the path set, the deletions scheduled with `setTimeout`, and the
engine runs started.

Files:

- `wrappers.dfy`: `Option`, standing for `null`, `undefined` and `NaN`.
- `js_text.dfy` (module `JsText`): the JavaScript string primitives the handler
  uses. These are `replace(/&/g, 'and')`, the anchored `cmd_regex`,
  `parseInt` with no radix, and the decimal text of an integer.
- `sanitize.dfy` (module `Sanitizer`): the pitch default, the sanitised fields
  and the text the cache key hashes.
- `voices.dfy` (module `Voices`): tier directories, model files, sample rates
  and the resolution order.
- `service.dfy` (module `Service`): the pure specification `Handle`, which
  splits into `Serve` and `Generate`, and the class `AppService`. The class
  holds the mutable host state. `GetTTS` performs a request step by step and is
  proved to end in the reply and host state that `Handle` gives.

What the model shows about the code as written:

- `cmd_regex` is `/^a-zA-Z0-9,._+:@%\/\- /g`. It is not a character class,
  and it is not a literal string either. `.` matches any one character except a
  line terminator, and `_+` matches one or more underscores. So it removes at
  most one match, only at index 0. Shell metacharacters pass through
  unchanged.
- The cache lookup probes `<key>.wav`, but a successful generation unlinks
  exactly that file and keeps `<key>-f.wav`. So an identical request never hits
  the cache and runs the engines again (`RepeatedRequestMisses`).
- `execPromise` rejects when a process exits non-zero, so `getTTS` rejects. If
  `ffmpeg` fails this way, `<key>.wav` is never unlinked. The next identical
  request is then a cache hit that serves the unshifted synthesis output
  (`TranscodeFailureCachesRaw`).
- The `<stderr> - <stdout>` answer comes only when `piper` exits with status 0
  but writes no file.
- The key text joins model, message and pitch with no separator. So
  `amy`/`hello` and `am`/`yhello` share a key, and so do message `hi1` at pitch
  2 and message `hi` at pitch 12. Once the voice of the second request is
  found, a cache hit for the first is served to it, whatever its model
  (`SharedKeyTextSharesHit`).

The handler checks no access token and applies no chain of audio effects
beyond the one pitch filter. The pitch is parsed with `parseInt`, not as a
float, and it is not clamped to any range. The model name is not reduced to an
allowed character set. Generated files are kept for a fixed 120000 ms.

## Model

| member | source | states |
|---|---|---|
| `JsText.ReplaceAmpersands` | src/app.service.ts:32-35 | the result has no `&`, and a text with no `&` is unchanged |
| `JsText.ReplaceAmpersandsAppend` | src/app.service.ts:32-35 | the global replacement distributes over concatenation, so it acts character by character |
| `JsText.ReplaceAmpersandsLength` | src/app.service.ts:32-35 | the length grows by exactly two per `&` of the input |
| `JsText.ReplaceAmpersandsIdempotent` | src/app.service.ts:32-35 | applying the replacement twice is the same as applying it once |
| `JsText.LeadingUnderscores` | src/app.service.ts:33 | the greedy `_+` takes the longest run of underscores: all of them are `_` and the next character is not |
| `JsText.CmdMatchLength` | src/app.service.ts:33 | the match at index 0 is either absent (0) or at least 18 characters and within the text |
| `JsText.StripCmdPrefix` | src/app.service.ts:36-38 | the result of `replace(cmd_regex, '')` is a suffix of the input |
| `JsText.StripCmdNeedsHead` | src/app.service.ts:33 | text too short for the pattern, or not starting with its first character, is unchanged |
| `JsText.StripCmdMatch` | src/app.service.ts:33 | head, any non-line-terminator, one or more `_`, tail: that prefix is removed and the rest kept |
| `JsText.StripCmdWitness` | src/app.service.ts:33 | conversely, a changed text was exactly such a match followed by the result |
| `JsText.StripCmdOnlyOnce` | src/app.service.ts:33 | `^` anchors at index 0 only: of two consecutive matches only the first is removed |
| `JsText.StripCmdKeepsShellText` | src/app.service.ts:33 | quotes, semicolons and `~` pass through unchanged, because the pattern is no character class |
| `JsText.DigitPrefix` | src/app.service.ts:38 | parseInt's digit run: the longest prefix of radix digits |
| `JsText.LeadingBlanks` | src/app.service.ts:38 | the leading run parseInt skips: every character before it is white space or a line terminator, and the one after it is neither |
| `JsText.TrimStart` | src/app.service.ts:38 | the suffix of the input after that run: it starts with neither white space nor a line terminator |
| `JsText.DigitChar` | src/app.service.ts:64 | the character for a digit value is a decimal digit with that value |
| `JsText.NatToDecimal` | src/app.service.ts:64 | `${n}` is nonempty, all decimal digits, with no leading zero |
| `JsText.IntToDecimal` | src/app.service.ts:64 | `${n}` of an integer starts with `-` or a digit |
| `JsText.NatToDecimalValue` | src/app.service.ts:64 | reading the decimal digits back gives the number |
| `JsText.ParseDigitsPrefix` | src/app.service.ts:38 | digits followed by a non-digit: exactly those digits are read |
| `JsText.DigitPrefixStopsAtNonDigit` | src/app.service.ts:38 | the digit run of digits followed by a non-digit is those digits |
| `JsText.ParseIntDigitPrefix` | src/app.service.ts:38 | parseInt of a decimal digit prefix and any non-digit rest (not a `0x` prefix) is the prefix's value |
| `JsText.ParseIntOfDecimal` | src/app.service.ts:38 | parseInt inverts the decimal text of every integer, negative ones included |
| `JsText.ParseInt` | src/app.service.ts:38 | `parseInt` with no radix; `ParseIntOfDecimal`, `ParseIntDigitPrefix` and the examples below state what it reads |
| `JsText.ParseIntNaNExamples` | src/app.service.ts:38-39 | `""`, `"abc"` and `"0x"` are NaN |
| `JsText.ParseIntSignedExample` | src/app.service.ts:38 | leading white space and a sign are understood: `" \t-7"` gives -7 |
| `JsText.ParseIntHexExample` | src/app.service.ts:38 | a `0x` prefix switches to radix 16: `"0x1A"` gives 26 |
| `Sanitizer.PitchText` | src/app.service.ts:29 | the pitch default: an absent or empty pitch reads as "1"; a present nonempty pitch is kept as it is |
| `Sanitizer.NumPitch` | src/app.service.ts:38-39 | the pitch as a number, with 1 for NaN; `PitchDefault`, `PitchOfDecimal` and `PitchIntegerPrefix` state its values |
| `Sanitizer.SanitizeMessage` | src/app.service.ts:34-36 | the sanitised message contains no `&` |
| `Sanitizer.Sanitize` | src/app.service.ts:34-39 | the three sanitised fields; `SanitizeLeavesPlain` and `AmpersandSpelledOut` state what they keep |
| `Sanitizer.KeyText` | src/app.service.ts:63-65 | the text the cache key hashes; `KeyTextSeam`, `KeyTextCollision` and `KeyTextPitchSeam` state how it collides |
| `Sanitizer.StripCmdKeepsNumber` | src/app.service.ts:38 | a pitch text starting with a digit or `-` is not touched by `cmd_regex` |
| `Sanitizer.PitchDefault` | src/app.service.ts:29 | an absent or empty pitch gives pitch 1 |
| `Sanitizer.PitchOfDecimal` | src/app.service.ts:38-39 | every integer in decimal gives itself: no clamping, so `"0"` gives 0 and negatives stay negative |
| `Sanitizer.PitchIntegerPrefix` | src/app.service.ts:38-39 | digits followed by a fraction or other non-digits give the integer prefix |
| `Sanitizer.PitchFractionTruncated` | src/app.service.ts:38-39 | `"1.5"` gives pitch 1 |
| `Sanitizer.PitchNotClamped` | src/app.service.ts:38-39 | `"0"` gives 0 and `"-3"` gives -3 |
| `Sanitizer.PitchNaNDefault` | src/app.service.ts:38-39 | `"abc"` is NaN and gives pitch 1 |
| `Sanitizer.AmpersandSpelledOut` | src/app.service.ts:32-36 | a message with `&` and the same message with `and` have the same key text |
| `Sanitizer.KeyTextSeam` | src/app.service.ts:63-65 | moving characters between model and message leaves the key text unchanged |
| `Sanitizer.SanitizeLeavesPlain` | src/app.service.ts:24-34 | a model and a message of at most ten characters, the message without `&`, come through sanitisation unchanged |
| `Sanitizer.CollidingRequestsKept` | src/app.service.ts:34-39 | the requests `amy`/`hello` and `am`/`yhello` sanitise to exactly those models and messages, at the same pitch |
| `Sanitizer.KeyTextCollision` | src/app.service.ts:63-65 | at every pitch, the different models `amy` and `am` with messages `hello` and `yhello` have the same key text |
| `Sanitizer.KeyTextPitchSeam` | src/app.service.ts:63-65 | a message ending in `1` at pitch d has the key text of the shorter message at pitch 10+d |
| `Voices.Resolve` | src/app.service.ts:44-53 | a voice exactly when some tier directory exists; it is the first such tier in probe order, with that tier's model file and rate |
| `Voices.TierDir` | src/app.service.ts:44-50 | a tier's voice directory; `VoicePathsUnderRoot` states where it lies |
| `Voices.ModelFile` | src/app.service.ts:45-51 | a tier's `.onnx` model file; `VoicePathsUnderRoot` states where it lies |
| `Voices.TierPrecedence` | src/app.service.ts:44-53 | low wins whenever its directory exists (rate 16000); medium exactly when low is absent and medium present; high exactly when both are absent; medium and high use 22050 |
| `Voices.VoicePathsUnderRoot` | src/app.service.ts:44-51 | every tier directory and model file lies under `./piper-voices/` |
| `Voices.ResolveReadsTierDirs` | src/app.service.ts:44-53 | resolution depends only on the existence of the model's three tier directories |
| `Service.CachePathIsNotVoicePath` | src/app.service.ts:44-67 | no path under `./piper_cache/` is a path under `./piper-voices/` |
| `Service.PitchFilter` | src/app.service.ts:90 | the ffmpeg filter text; `GeneratedLifecycle` states that the transcoding run gets it with the voice's rate and the pitch |
| `Service.Run` | src/app.service.ts:79-90 | one engine run; `AppService.RunEngine` is proved to perform it |
| `Service.Generate` | src/app.service.ts:78-106 | synthesis, transcoding, unlink and timer; `GeneratedLifecycle`, `SynthesisFailedReport`, `GeneratedWhen` and `GenerateNeverHits` state its outcomes |
| `Service.Serve` | src/app.service.ts:41-106 | resolution, cache lookup and generation; `ModelNotFoundWhen`, `NoTierFallThrough`, `CacheHitWhen`, `ServeNeverMissingArgs`, `RepeatedRequestMisses` and `TranscodeFailureCachesRaw` state its outcomes |
| `Service.Handle` | src/app.service.ts:22-106 | the whole request; `MissingArgsFirst` states that it answers "missing args" or serves the sanitised request, `UnknownModelNotFound` gives the controller test's answer, and `AppService.GetTTS` is proved to perform it |
| `Service.CacheFilesUnderRoot` | src/app.service.ts:83-92 | `<key>.wav` and `<key>-f.wav` lie in the cache directory and are different files |
| `Service.VoicePathsUnaffected` | src/app.service.ts:44-55 | creating or deleting a key's cache files changes neither voice resolution nor which model files exist |
| `Service.MissingArgsFirst` | src/app.service.ts:22-27 | "missing args" exactly when model or message is null, whatever the host holds; the host is then unchanged; otherwise the sanitised request is served |
| `Service.ServeNeverMissingArgs` | src/app.service.ts:22-27 | "missing args" is decided only by the argument check |
| `Service.ModelNotFoundWhen` | src/app.service.ts:55-60 | "model not found" exactly when no tier directory exists or the chosen tier's model file is absent; decided before the cache; host unchanged |
| `Service.NoTierFallThrough` | src/app.service.ts:44-60 | the first existing tier with a missing model file gives "model not found", whatever later tiers hold |
| `Service.UnknownModelNotFound` | src/app.controller.spec.ts:17-22 | the test's request for `nonexistent_model_name` with pitch `0` answers "model not found" |
| `Service.CacheHitWhen` | src/app.service.ts:67-76 | once the voice is found, a cache hit exactly when `<key>.wav` exists; it names that file, runs no engine and changes nothing |
| `Service.GenerateNeverHits` | src/app.service.ts:78-106 | generation never answers with a cache hit or "model not found" |
| `Service.SharedKeyTextSharesHit` | src/app.service.ts:63-76 | requests with the same key text get the same cache hit once the second one's voice is found, whatever their models, pitches and messages |
| `Service.GeneratedLifecycle` | src/app.service.ts:79-101 | a generated reply: both engines exited 0 and synthesis wrote its file; synthesis then ffmpeg ran with the model path and the filter `asetrate=<rate>*<p>,aresample=<rate>,atempo=1/<p>`; `<key>.wav` is gone; `<key>-f.wav` is returned and added when ffmpeg wrote it; exactly one deletion of it is scheduled at 120000 ms |
| `Service.SynthesisFailedReport` | src/app.service.ts:102-106 | synthesis exited 0 and wrote no file: the answer is `<stderr> - <stdout>`, only synthesis ran, and paths and timers are unchanged |
| `Service.GeneratedWhen` | src/app.service.ts:79-101 | on a cache miss the reply is generated exactly when piper exits 0 and writes its file and ffmpeg exits 0 |
| `Service.RepeatedRequestMisses` | src/app.service.ts:67-93 | after a generation the same request does not hit the cache: the voice still resolves and synthesis runs again |
| `Service.TranscodeFailureCachesRaw` | src/app.service.ts:87-92 | when ffmpeg exits non-zero, `<key>.wav` stays, and the same request then hits the cache on that unshifted file and changes nothing |
| `Service.AppService.RunEngine` | src/app.service.ts:79-91 | one awaited engine run is recorded, and its output path exists afterwards when it wrote it |
| `Service.AppService.GetTTS` | src/app.service.ts:16-107 | the outcome and the new paths, timers and engine runs are those `Handle` gives for the old state |
| `Service.AppService.ServeSanitized` | src/app.service.ts:41-76 | the if-chain over tier directories, the model-file check and the cache probe end as `Serve` says |
| `Service.AppService.GenerateFile` | src/app.service.ts:78-106 | synthesis, ffmpeg, unlink and the scheduled deletion end as `Generate` says |

## Left out

- Response headers (`res?.set`), `StreamableFile` and `createReadStream`, the `Logger` warning and the `process.cwd()` join. These are HTTP and I/O plumbing. A streamed outcome carries the path of its file.
- `src/app.controller.ts`. It only passes its arguments to the service.
- Running `piper` and `ffmpeg` through a shell. Each run is a `ProcessRun` given as input. Shell quoting of the message inside `echo '…'`, and the injection it allows, is not modelled.
- Piper's audio and the audio meaning of the ffmpeg filter. The filter text is recorded, not interpreted.
- The MD5 digest. It is an arbitrary function, so distinct key texts may or may not collide.
- The firing of the `setTimeout` callback. The model records only the path and delay of each scheduled deletion. When the timer fires, its `unlinkSync` of a file that is already gone would throw; that is not modelled.
- Interleaving of concurrent requests across `await` points. Each request is atomic in the model.
- Failures of `existsSync` and `unlinkSync` themselves, such as permission errors. Paths are literal strings with no normalisation of `..` or repeated slashes, and files and directories are not told apart.
- Query values that are arrays, a non-string message, or a missing body. In the source these throw a `TypeError`. The model takes `model`, `pitch` and `message` as optional strings.
- JsText.ParseInt: the value is an unbounded integer. Number rounding above 2^53 and `Infinity` for very long digit strings are not modelled.
- JsText.IntToDecimal: always plain decimal digits. JavaScript writes integers of magnitude 1e21 and above in exponent notation.
- JsText.StripCmdPrefix: strings are sequences of Unicode scalar values. A JavaScript string counts a character outside the Basic Multilingual Plane as two code units, and `.` matches only the first of them; that case is not modelled.
