# BinauralMixer in Dafny

BinauralMixer is a command-line tool. It takes an input audio track and
writes a mixed copy into a `build` directory. The mix can add a binaural
tone, meaning two sine tones, one per channel, each either constant or
sweeping from a start frequency to an end frequency. It can also add
one-shot sound effects, each laid over the track at an offset with a gain.
The tool does its audio work by running the `sox` and `soxi` programs.

This project models the tool's core and proves properties of the model:

- the two argument parsers, `--binaural` and `--effect` with its `repeat=`
  clause;
- the sample-rate and duration probes;
- the output file name;
- resampling each distinct effect file into the build directory once;
- overlaying one effect through temporary files;
- the control flow of `main`, including which exception ends a run, which
  commands have run by then and which files are left behind;
- the two ASCII plots, the sweep bars and the effects table.

## How the model is built

- **Modules.** There is one module per concern:
  - `Text`: Python's `str.split` on one character, `strip`, and `str(int)`;
  - `Numbers`: the number conversions;
  - `Params`: the records of `params.py`;
  - `Paths`: `os.path` and the build layout;
  - `Engine`: the processes and the file system;
  - `Binaurals`, `Effects` and `Probe`: `binaurals.py`, `effects.py` and
    `audio_utils.py`;
  - `Pipeline` and `Script`: `main.py`;
  - `Plot`: `plot.py` and `plot_binaural.py`.
- **The outside world.** The environment is the class `Engine.Engine`.
  - Its field `log` is every process the program has started, in order.
    Its field `files` is the set of paths that exist. The methods update
    both fields in place.
  - Whether a `sox` command exits non-zero is a fixed function `fails` of
    its token list.
  - What `soxi` prints is a fixed function `answers` of its token list.
  - `subprocess.run(..., check=True)` stops at the first failing command.
    The function `Engine.Issued` states this: it gives the prefix of a
    command plan that actually runs.
- **Outcomes.** Each stage of `main` is a method. Its postcondition is a
  predicate over the log and the file set that the stage leaves, for
  instance `Pipeline.ChainEnded`, `Pipeline.MixEnded` or
  `Pipeline.ProcessEnded`. The lemmas beside each stage establish that
  predicate on each exit. When a run raises, `Pipeline.RaisedState` gives
  the commands run and the files left, exactly, for the stage that
  raised.
- **Numbers.**
  - Floats are `real`s.
  - `float()`, `int()`, `str(x)` of a float and the `:+g` format are
    functions the model is given, collected in `Numbers.Conversions`. The
    model does not define them character by character. A lemma that needs
    a fact about them states it as a precondition, for instance that
    `float("")` raises (`Numbers.RejectsEmpty`).
  - `int()` of a float is `Numbers.Trunc`, which truncates toward zero.
- **Duplicated code.**
  - `main.py` has its own copies of most helpers. Each identical copy is
    modelled once. The copies of `resample_effects`,
    `generate_binaural_sox`, `mix_audio_binaural`, `get_mixed_filename`
    and `parse_binaural_arg` are identical.
  - Two copies differ. `main.py`'s `parse_effect_arg` ignores any `repeat=`
    field (`Pipeline.ParseEffectPlain`). `main.py`'s `overlay_effect` has
    no repeat; it is the pad-and-mix half of `Effects.OverlayEffect`
    (`Effects.PadAndMix`). The pipeline uses `main.py`'s copies, as
    `main.py` does.
- **Arguments.**
  - An absent `--effect` list (`None`) is modelled as the empty list.
  - An absent `--binaural` is `None`. `if args.binaural:` is
    `Pipeline.HasBinaural`, which holds for a given, non-empty string.
- **Resampled file names.** The loop that resamples the effects is proved
  for any naming function of the effect files,
  `Effects.ResampleWith(e, effects, rate, name)`. `main` uses it with
  `Effects.CacheNaming`, which names the file
  `build/<stem>-<rate>.wav`.
- **Imports.** `main.py:5` imports `PROGRAM_NAME` and `VERSION` from
  `cli.py`, which defines `_PROGRAM_NAME` and `_VERSION` (`cli.py:3-4`).
  As written, that import fails before `main` runs. The model describes
  `main` as if the import succeeded.

## Model

| member | source | states |
|---|---|---|
| Text.Split | src/binaurals.py:14-16 | `str.split` on one character gives at least one field, and no field contains the separator |
| Text.JoinSplit | src/binaurals.py:14-16 | joining the fields of a split with the separator gives back the original string |
| Text.SplitJoin | src/effects.py:22 | splitting a join of separator-free fields gives back exactly those fields |
| Text.SplitCount | src/binaurals.py:14 | a string splits into one more field than it has separators; so `left, right = s.split(":")` needs exactly one ':' |
| Text.SplitConcat | src/binaurals.py:14-16 | splitting `a + sep + b` is splitting `a`, then splitting `b` |
| Text.SplitFirstEmpty | src/binaurals.py:17 | the first field is empty exactly when the string is empty or starts with the separator |
| Text.SplitNoSeparator | src/effects.py:22 | a string without the separator splits into itself alone |
| Text.LastIndex | src/audio_utils.py:26 | the last position of a character, or -1: the character is at that position and not after it |
| Text.StripStart | src/audio_utils.py:11 | `lstrip()` removes exactly a leading run of whitespace, and the result does not start with whitespace |
| Text.StripEnd | src/audio_utils.py:11 | `rstrip()` removes exactly a trailing run of whitespace, and the result does not end with whitespace |
| Text.Strip | src/audio_utils.py:11 | `strip()` neither starts nor ends with whitespace, and is empty exactly when the input is all whitespace |
| Text.StripEmptyOnlyIfSpace | src/audio_utils.py:11 | stripping gives "" exactly for all-whitespace text |
| Text.StripStartSpaces | src/audio_utils.py:11 | leading whitespace in front of a word is removed and the word kept |
| Text.StripEndSpaces | src/audio_utils.py:11 | trailing whitespace after a word is removed and the word kept |
| Text.StripPadded | src/audio_utils.py:11 | stripping whitespace-padded text gives back the text between the padding |
| Text.Digit | src/binaurals.py:57 | a digit value prints as a character '0'..'9' |
| Text.NatDecimal | src/binaurals.py:57 | `str()` of a natural number is a non-empty run of decimal digits |
| Text.DecimalRoundTrip | src/binaurals.py:57 | reading back the digits `str()` prints gives the number |
| Text.NatDecimalPlain | src/effects.py:79 | a printed rate has no '-', '.' or '/', so it cannot disturb the file name it is placed in |
| Numbers.Trunc | src/effects.py:107 | `int()` of a float truncates toward zero: the result lies within 1 of the value, on the side of 0 |
| Numbers.TruncMonotone | src/plot.py:24 | `int()` of a float is monotone |
| Params.ParseFloat | src/binaurals.py:17 | `float()` succeeds exactly where the conversion reads a number, with that number; otherwise the cause names the text |
| Paths.Basename | src/audio_utils.py:26 | `os.path.basename` is a suffix of the path without '/' |
| Paths.SplitExt | src/audio_utils.py:26 | `os.path.splitext` splits the name into stem and extension whose concatenation is the name; the extension is empty or one '.' followed by no '.' |
| Paths.MixedFilename | src/audio_utils.py:25-27 | the mixed name has no '/' and contains '-' |
| Paths.LastIndexConcat | src/audio_utils.py:26 | the last occurrence in `u + v` is in `v` when `v` contains the character, else it is the last in `u` |
| Paths.MixedFilenameKeepsExtension | src/audio_utils.py:25-27 | the mixed name has the input's extension and the input's stem followed by "-mixed" |
| Paths.KeepsNoExtension | src/audio_utils.py:27 | a name without an extension keeps none after "-mixed" is appended |
| Paths.KeepsExtension | src/audio_utils.py:27 | inserting "-mixed" before an extension leaves that extension as the one `splitext` finds |
| Paths.OutputIsNotIntermediate | src/main.py:11-13 | the output path is never an intermediate `tmp_effect_N.wav` and never the binaural file, so no cleanup removes it |
| Paths.OutputHasDash | src/main.py:33 | the output path contains '-' |
| Paths.TmpHasNoDash | src/main.py:13 | an intermediate path has no '-' |
| Paths.BinauralHasNoDash | src/main.py:12 | the binaural file path has no '-' |
| Paths.TmpEffectInjective | src/main.py:61 | distinct overlay indices give distinct intermediate files |
| Paths.JoinBuild | src/main.py:33 | joining a relative name onto the build directory gives "build/" followed by the name |
| Paths.BuildPathsStartWithBuild | src/main.py:11-13 | the output, every intermediate and the binaural file lie in the build directory |
| Engine.Issued | src/main.py:53-55 | running a plan with `check=True` runs a prefix of it: the whole plan when every call succeeds, otherwise up to and including a call that fails |
| Engine.IssuedAppend | src/main.py:35-73 | after a plan that succeeds, running more commands issues that plan and then what the rest issues |
| Engine.SucceedsSnoc | src/main.py:59-69 | a succeeding plan followed by a succeeding call succeeds |
| Engine.SucceedsAppend | src/main.py:35-73 | two plans in sequence succeed exactly when each succeeds |
| Engine.IssuedAfter | src/main.py:35-73 | when the first plan succeeds and the second fails, the run ends at the second plan's failing call |
| Engine.IssuedBefore | src/main.py:35-73 | when the first plan fails, nothing of the second plan runs |
| Engine.IssuedStopsAt | src/effects.py:75-89 | a failing call after a succeeding prefix is the last call run |
| Engine.WrittenSnoc | src/main.py:53-55 | a command adds the file it writes to what a plan wrote exactly when it succeeds |
| Engine.Engine.constructor | src/main.py:16 | the run starts with the given files and an empty log |
| Engine.Engine.Sox | src/binaurals.py:66 | a `sox` call is logged; it succeeds exactly when its tokens do not fail, and it creates its output file only then |
| Engine.Engine.Soxi | src/audio_utils.py:7-9 | a `soxi` query is logged and returns the engine's answer for its tokens; its exit status is not consulted |
| Engine.Engine.Remove | src/main.py:74 | `os.remove` deletes the path, reporting whether it existed |
| Engine.Engine.MakeDirs | src/main.py:17 | `os.makedirs(..., exist_ok=True)` makes the directory exist and changes nothing else |
| Engine.Engine.NamedTemp | src/effects.py:108-109 | `NamedTemporaryFile(suffix=".wav", delete=False)` creates a fresh `/tmp/...wav` file that did not exist |
| Binaurals.ParseBinaural | src/binaurals.py:8-28 | parsing fails exactly when some field is rejected, and then the `ValueError` message names the whole argument |
| Binaurals.ToneSplits | src/binaurals.py:15-16 | a printed channel `start[-end]` splits at '-' into its start and, when there is one, its end |
| Binaurals.BinauralRoundTrip | src/binaurals.py:8-28 | parsing the documented form `start[-end]:start[-end]` of any parameters whose numbers print back gives those parameters |
| Binaurals.NeedsExactlyOneColon | src/binaurals.py:14 | an argument without exactly one ':' is rejected, with the number of fields found |
| Binaurals.NoNegativeFrequency | src/binaurals.py:15-20 | no accepted argument yields a negative frequency, because '-' always separates pieces |
| Binaurals.EmptyPieceFails | src/binaurals.py:17-19 | an empty side, or a side that starts with '-', is rejected |
| Binaurals.TwoSides | src/binaurals.py:14 | a single ':' splits the argument into its left and right side |
| Binaurals.ExtraPieceKeepsTwo | src/binaurals.py:15-18 | a further '-'-piece does not change the first two pieces of a side |
| Binaurals.ExtraPiecesIgnored | src/binaurals.py:15-20 | text after a side's second '-'-piece is ignored: `46-70-99:48` parses as `46-70:48` |
| Binaurals.SidesParse | src/binaurals.py:14-26 | a well-formed argument parses to its start and end numbers on each side |
| Binaurals.SideSplits | src/binaurals.py:15-16 | a side `start` or `start-end` splits into its one or two pieces |
| Binaurals.SweepExample | src/binaurals.py:11 | the documented `46-70:48-74` sweeps 46 to 70 Hz left and 48 to 74 Hz right |
| Binaurals.ConstantExample | src/binaurals.py:11 | the documented `100:104` is a constant 100 Hz left and 104 Hz right |
| Binaurals.SynthCommandShape | src/binaurals.py:44-64 | the synth command is `sox -b 16 -n -r RATE -c 2 OUT synth DUR`, then one `sine` per channel with that channel's tone; a `gain` clause is added exactly when the gain is non-zero, signed '+' exactly when it is positive |
| Binaurals.SineArgsParseBack | src/binaurals.py:44-52 | a sine token carries a '-' exactly when the channel sweeps, and the two tokens joined by ':' parse back to the parameters |
| Binaurals.GenerateBinauralSox | src/binaurals.py:30-66 | one synth command is logged; it creates the binaural file exactly when it succeeds |
| Binaurals.MixAudioBinaural | src/binaurals.py:69-85 | one `sox -m INPUT BINAURAL OUTPUT` is logged; it creates the output exactly when it succeeds |
| Effects.DecodeRepeat | src/effects.py:37-60 | an accepted repeat is well formed (a positive int count, a positive float duration, or an endless repeat without a value); it is a count exactly for an 'x' suffix and endless exactly for `inf`; any other value is rejected naming it |
| Effects.FirstFailure | src/effects.py:36-60 | there is no rejected repeat value exactly when every value decodes |
| Effects.ParseEffect | src/effects.py:16-67 | parsing fails exactly when some field is rejected, and then the `ValueError` message names the whole argument |
| Effects.FirstFailureSnoc | src/effects.py:36-60 | the first rejected value stays first when a value is appended |
| Effects.RepeatOfSnoc | src/effects.py:36-60 | one more field leaves an earlier failure, ignores a field without `repeat=`, and otherwise replaces the repeat or fails with its cause |
| Effects.RepeatOfFailureSticks | src/effects.py:36-60 | once a repeat field is rejected, later fields do not change the outcome |
| Effects.RepeatOfWellFormed | src/effects.py:62-63 | a repeat the loop keeps is well formed, so the check at line 62 never fires |
| Effects.ParseEffectArg | src/effects.py:16-67 | the method computes exactly `Effects.ParseEffect` |
| Effects.FoldRepeat | src/effects.py:35-60 | the repeat loop succeeds exactly when the fold over the extra fields succeeds, with its last repeat, which is well formed; a failure names the whole argument and keeps the cause |
| Effects.SplitFields | src/effects.py:22 | `file:gain:offset` with ':'-free pieces splits into those pieces |
| Effects.ThreeFields | src/effects.py:22-33 | `file:gain:offset` parses to that file and offset, with the default gain when the gain is empty |
| Effects.GongExample | src/effects.py:19 | the documented `gong.mp3:1.2:5.5` has gain 1.2 and offset 5.5 |
| Effects.BellExample | src/effects.py:19 | the documented `bell.wav::10` takes the default gain 0.5 and offset 10 |
| Effects.TooFewFields | src/effects.py:23-32 | an argument with fewer than two ':' is rejected: without ':' for the field count, with one for a bad gain or the missing offset |
| Effects.ParsedRepeatWellFormed | src/effects.py:62-65 | every parsed effect's repeat is absent or well formed |
| Effects.OtherFieldIgnored | src/effects.py:37 | an extra field that does not start with `repeat=` is ignored |
| Effects.LastRepeatWins | src/effects.py:46-56 | of several `repeat=` fields the last one decides |
| Effects.CountExample | src/effects.py:39-46 | `3x` is a count of 3 plays |
| Effects.DurationExample | src/effects.py:47-54 | `2.5s` is a duration of 2.5 seconds |
| Effects.EndlessExample | src/effects.py:55-56 | `inf` is an endless repeat without a value |
| Effects.RepeatRejections | src/effects.py:44-60 | `0x` is rejected as not positive, `5m` as an unknown repeat |
| Effects.EffectFilesSnoc | src/effects.py:75-88 | one more effect adds its file to the files seen |
| Effects.CacheMapSpec | src/effects.py:69-89 | the returned map has exactly the effect files as keys, each mapped to its resampled name |
| Effects.EffectFilesPrefix | src/effects.py:75 | the files of a prefix of the effects are among all the effect files |
| Effects.CacheMapPrefixValues | src/effects.py:88 | the resampled names of a prefix of the effects are among all the resampled names |
| Effects.ResamplePlanPrefix | src/effects.py:75-87 | the commands for a prefix of the effects are a prefix of the commands for all |
| Effects.ResamplePlanSkip | src/effects.py:76-80 | a file already mapped, or whose resampled file exists, issues no command |
| Effects.ResamplePlanAdd | src/effects.py:78-87 | a new file whose resampled file is missing issues exactly one `sox IN -r RATE OUT` |
| Effects.CacheMapStep | src/effects.py:88 | each effect maps its file to its resampled name; a repeated file leaves the map unchanged |
| Effects.ResamplePlanCalls | src/effects.py:81-87 | every resample command converts some effect file, at the given rate, to its resampled name, which did not exist |
| Effects.ResamplePlanDistinct | src/effects.py:76-80 | no resampled file is written twice |
| Effects.ResamplePlanWritesMap | src/effects.py:79-88 | every resample command writes a file that the returned map names |
| Effects.ResampleNothingWhenCached | src/effects.py:80 | when every resampled file exists, no command runs |
| Effects.ResampleIdempotent | src/effects.py:69-89 | resampling again after a full resampling runs nothing |
| Effects.SameStemSamePath | src/effects.py:78-79 | two effect files with the same stem share one resampled path, whatever their directory or extension |
| Effects.CacheMapCovers | src/effects.py:88 | every effect's file is a key of the map |
| Effects.ResampleStopsAt | src/effects.py:87 | a failing resample command ends the resampling, with the files written so far among the map's names |
| Effects.EnsureResampled | src/effects.py:80-87 | an existing resampled file runs nothing; otherwise one command is logged and creates the file exactly when it succeeds |
| Effects.ReachedStart | src/effects.py:74 | the loop invariant holds before the first effect |
| Effects.ReachedSeen | src/effects.py:76-77 | skipping a file already mapped keeps the invariant |
| Effects.ReachedExisting | src/effects.py:80-88 | mapping a file whose resampled file exists keeps the invariant |
| Effects.ReachedResampled | src/effects.py:81-88 | resampling a file successfully keeps the invariant |
| Effects.ReachedFails | src/effects.py:87 | a failing conversion is the last command of the whole resampling, which fails, and the files are then exactly those the earlier commands wrote |
| Effects.ReachedEnd | src/effects.py:89 | at the end of the loop the map is the full cache map, every command succeeded, and exactly the map's names were added |
| Effects.ResampleEffects | src/effects.py:69-89 | runs the resample plan up to its first failure; on success it returns the cache map and adds exactly its names; on failure it returns the failing tokens and adds exactly the files the commands before the failing one wrote |
| Effects.ResampleWith | src/effects.py:69-89 | the same as `Effects.ResampleEffects`, for any naming of the resampled files |
| Effects.OverlayPlanShape | src/effects.py:104-123 | an overlay is three commands for a count repeat, its first rendering `count - 1` extra plays into the repeat file that the pad then reads; otherwise two, the pad reading the effect itself; the last always mixes the base with the padded file into the output |
| Effects.PadAndMix | src/effects.py:115-126 | the pad and the mix run up to the first failure; on success the output exists and the pad's temporary file is gone; on failure the files are as before |
| Effects.RenderRepeat | src/effects.py:104-113 | a fresh temporary file is created and one repeat command is logged, whether or not it succeeds |
| Effects.OverlayEffect | src/effects.py:91-128 | as written: a count repeat without a value raises before anything runs; otherwise the overlay plan runs up to its first failure; on success only the output is added; a failing repeat render leaves its temporary file behind |
| Effects.RepeatTempLeaks | src/effects.py:104-128 | in a run where every sox command fails, the overlay raises and the repeat's temporary file is still present; the same run of the corrected overlay leaves no file |
| Effects.OverlayEffectReleasing | src/effects.py:91-128 | as intended: the same commands and results, but every failing overlay leaves exactly the files that existed before |
| Probe.DurationOf | src/audio_utils.py:10-13 | an unreadable duration raises `RuntimeError` naming the file |
| Probe.SampleRateOf | src/audio_utils.py:20-23 | an unreadable sample rate raises `RuntimeError` naming the file |
| Probe.ProbeIgnoresPadding | src/audio_utils.py:11-21 | whitespace around `soxi`'s output is ignored; the number is the conversion of the text between |
| Probe.BlankOutputFails | src/audio_utils.py:11-13 | blank output raises for both probes |
| Probe.FractionalRateFails | src/audio_utils.py:21-23 | a sample rate printed with a '.' raises |
| Probe.GetAudioDuration | src/audio_utils.py:6-13 | logs one `soxi -D FILE`, creates no file, and returns the reading of its answer |
| Probe.GetAudioSampleRate | src/audio_utils.py:16-23 | logs one `soxi -r FILE`, creates no file, and returns the reading of its answer |
| Pipeline.ParseEffectPlain | src/main.py:112-130 | a failure names the whole argument; an accepted argument has at least three fields and never a repeat |
| Pipeline.PlainDropsRepeat | src/main.py:112-130 | where `main.py`'s parser fails, the `effects.py` parser fails with the same error; where it succeeds, the `effects.py` parser gives the same effect plus the repeat of the extra fields, or rejects a bad `repeat=` field |
| Pipeline.ExtraFieldIgnored | src/main.py:118-128 | a fourth field is ignored |
| Pipeline.ParseAll | src/main.py:21-24 | parsing every effect succeeds exactly when each one parses, giving them in order |
| Pipeline.ParseAllStops | src/main.py:23-24 | the first rejected effect raises its error, whatever follows |
| Pipeline.ParseEffects | src/main.py:21-24 | the loop computes exactly `Pipeline.ParseAll` |
| Pipeline.ChainPlanLength | src/main.py:59-68 | `n` overlays are `2n` commands |
| Pipeline.ChainPlanAt | src/main.py:59-68 | overlay `i` pads the resampled file of effect `i` with its offset and gain, then mixes the previous result (the output for the first) into `tmp_effect_i.wav` |
| Pipeline.PlanAtFromParts | src/main.py:59-68 | the commands of earlier overlays keep their positions when an overlay is appended |
| Pipeline.StepPlanIs | src/main.py:60-68 | one overlay is its pad command and its mix command |
| Pipeline.TempIsNotBuild | src/main.py:61 | a temporary file is never an intermediate nor in the build directory |
| Pipeline.TmpSetSnoc | src/main.py:61 | the intermediates of `n + 1` overlays are those of `n` and `tmp_effect_n.wav` |
| Pipeline.ChainStart | src/main.py:58 | the overlay loop's invariant holds before the first overlay |
| Pipeline.ChainSnoc | src/main.py:59-69 | the command chain of one more overlay extends the chain |
| Pipeline.LogThenFail | src/main.py:59-69 | a succeeding chain and then a failing overlay end at the overlay's failing command |
| Pipeline.LogThenSucceed | src/main.py:59-69 | a succeeding chain and a succeeding overlay make a longer succeeding chain |
| Pipeline.ChainStep | src/main.py:59-69 | a successful overlay keeps the loop invariant, adding its intermediate |
| Pipeline.StepFiles | src/main.py:61-69 | an overlay adds its intermediate and leaves no temporary file |
| Pipeline.ChainFails | src/main.py:62-68 | a failing overlay ends the loop, with the earlier intermediates present |
| Pipeline.ChainDone | src/main.py:59-69 | after the last overlay every intermediate exists and the whole chain ran |
| Pipeline.OverlayChain | src/main.py:57-69 | the loop runs the chain up to its first failure; when every overlay succeeds all intermediates exist; otherwise it raises naming the failing command, with the intermediates before it present |
| Pipeline.OverlayOne | src/main.py:59-68 | one overlay either extends the loop invariant or ends the loop as `Pipeline.ChainEnded` says |
| Pipeline.RemoveIntermediates | src/main.py:84-87 | the cleanup loop removes the intermediates of all overlays but the last, and runs no command |
| Pipeline.LastWriter | src/main.py:35-55 | for any output other than the binaural file, the mix stage's last command writes it and no earlier command does |
| Pipeline.OneWriterOfOutput | src/main.py:35-55 | exactly one command writes the output, and it is the last command of the mix stage |
| Pipeline.IssuedAfterQuery | src/main.py:39 | a `soxi` query never fails a plan, so a plan after it runs as it would alone |
| Pipeline.BinauralRejected | src/main.py:36 | a rejected `--binaural` raises `ValueError` before any command or file |
| Pipeline.DurationRejected | src/main.py:39 | an unreadable duration raises `RuntimeError` after the query alone |
| Pipeline.SynthAndMix | src/main.py:37-51 | a failing synth stops before the mix; the stage succeeds exactly when both commands do |
| Pipeline.BinauralCommands | src/main.py:36-51 | the binaural branch's outcome satisfies `Pipeline.BinauralEnded`: success creates the binaural file and the output; a failing mix leaves only the binaural file |
| Pipeline.BinauralMix | src/main.py:36-51 | parses, probes, synthesises and mixes, ending as `Pipeline.BinauralEnded` says for the actual parse and probe results |
| Pipeline.MixByBinaural | src/main.py:35-51 | the binaural branch ends the mix stage as `Pipeline.MixEnded` says |
| Pipeline.MixByCopy | src/main.py:52-55 | the copy branch ends the mix stage as `Pipeline.MixEnded` says |
| Pipeline.BuildMix | src/main.py:35-55 | the output is written by the binaural mix or by a copy; on success it exists; on failure the binaural file stays exactly when the synth wrote it, and nothing else is added |
| Pipeline.EffectsNone | src/main.py:57 | without effects nothing runs |
| Pipeline.EffectsChainFailed | src/main.py:59-69 | a failing overlay raises with its tokens, and the intermediates written so far stay |
| Pipeline.EffectsCopyFailed | src/main.py:71-73 | a failing final copy raises, with every intermediate still present |
| Pipeline.EffectsCopied | src/main.py:71-74 | the final copy rewrites the output, and the last intermediate is removed |
| Pipeline.ApplyEffects | src/main.py:57-74 | the overlays and the final copy run up to the first failure; on success the output exists with every intermediate but the last, and the removal at line 74 always finds its file; on failure the raised command is the last one run |
| Pipeline.CacheInBuild | src/effects.py:79 | every resampled file lies in the build directory |
| Pipeline.NamingInBuild | src/main.py:31 | `main`'s resample naming only names build paths |
| Pipeline.CacheValuesInBuild | src/main.py:31 | every value of the resample map is a build path |
| Pipeline.TmpSetInBuild | src/main.py:61 | every intermediate is a build path |
| Pipeline.OutputNotTmp | src/main.py:33 | the output is neither an intermediate nor the binaural file |
| Pipeline.CoversAll | src/main.py:60 | the resample map has an entry for every effect, so the lookup at line 60 never raises `KeyError` |
| Pipeline.StagesToProcess | src/main.py:30-31 | once the rate is read, the stages' outcome is the run's outcome |
| Pipeline.RateRejected | src/main.py:30 | an unreadable sample rate raises `RuntimeError` after one query, with no file added |
| Pipeline.AddedInBuild | src/main.py:11 | growth by build paths only is growth in the build directory |
| Pipeline.ResampleRaised | src/main.py:31 | a failing resample raises with its tokens, after the query and the resampling up to it, having added exactly the files the earlier conversions wrote |
| Pipeline.ResampleRaisedParts | src/main.py:30-31 | a failing resampling leaves the query first, the failing conversion last, only build files added, and exactly the files the conversions before it wrote |
| Pipeline.FailedAfterQuery | src/main.py:30-31 | a log of the query and then commands up to a failing one starts with the query and ends with the failing command |
| Pipeline.RaisedEarly | src/main.py:30-31 | a failing resampling's parts make up the Raised case of `Pipeline.StagesEnded` |
| Pipeline.RaisedLate | src/main.py:30-87 | an exception after the resampling satisfies the exception facts of `Pipeline.StagesEnded` |
| Pipeline.MixRaised | src/main.py:35-55 | an exception in the mix stage names its failing command, and only build files were added |
| Pipeline.MixRaisedState | src/main.py:35-55 | an exception in the mix stage leaves exactly the query, the resampling and the mix commands issued, and the resampled files plus the binaural file when the synth wrote it |
| Pipeline.BinauralRaised | src/main.py:31-36 | a rejected binaural argument raises its `ValueError` after exactly the rate query and the resampling |
| Pipeline.MixRaisedFiles | src/main.py:35-55 | an exception in the mix stage has added only build files |
| Pipeline.GrowthInBuild | src/main.py:31-69 | the resampled files, the binaural file, the output and the intermediates are all build paths |
| Pipeline.QueryBefore | src/main.py:30 | commands issued after the sample-rate query leave it in its place in the log |
| Pipeline.FailedLast | src/main.py:35-55 | a mix stage that stops on a failing command leaves that command last in the log, and the raised error names it |
| Pipeline.QueryFirst | src/main.py:30 | the sample-rate query is the first command of every run that gets past parsing |
| Pipeline.EffectsRaisedLog | src/main.py:57-73 | an exception in the effects stage follows the query, the resampling and the mix in the log |
| Pipeline.EffectsRaisedFiles | src/main.py:57-73 | an exception in the effects stage has added only build files |
| Pipeline.EffectsRaised | src/main.py:57-73 | an exception in the effects stage satisfies the exception facts of `Pipeline.StagesEnded` |
| Pipeline.EffectsRaisedState | src/main.py:57-73 | an exception in the effects stage leaves exactly the commands up to the failing overlay or copy, and the resampled files, the binaural file, the output and the intermediates written so far |
| Pipeline.FinalFiles | src/main.py:71-87 | after cleanup the files are the originals, the resampled files and the output, with every intermediate and the binaural file gone |
| Pipeline.ProcessFinished | src/main.py:30-87 | normal completion reports the output and ran the query, the resampling, the mix and the effects in that order |
| Pipeline.FinishedLog | src/main.py:30-73 | when every stage succeeds, the log is the rate query, then the resampling, the mix and the effects, each in full |
| Pipeline.FinishedFromFacts | src/main.py:30-87 | a run whose log is the query, the resampling, the mix and the effects in full, and whose files are the originals, the resampled files and the output, has finished normally |
| Pipeline.Cleanup | src/main.py:76-87 | reports whether the output exists, then removes the binaural file and the intermediates of all overlays but the last |
| Pipeline.FinishedCleansUp | src/main.py:76-87 | after a normal run the output exists, and neither an intermediate nor the binaural file remains |
| Pipeline.EffectsRaisedLeaves | src/main.py:57-87 | an exception in the effects stage skips the cleanup: every earlier file, the output, the binaural file and every intermediate before the failing overlay remain |
| Pipeline.StoppedInEffects | src/main.py:57-73 | once the resampling and the mix have succeeded, an exception's state is the effects stage's |
| Pipeline.IntermediatesStay | src/main.py:57-87 | a file set made of the earlier files, the build products and the first `k` intermediates keeps each intermediate below `n - 1` when `k >= n - 1` |
| Script.Process | src/main.py:30-87 | a run past parsing ends as `Pipeline.ProcessEnded` says: the rate query first; an exception naming the last failing command, with exactly the commands run and the files left by the stage that raised (`Pipeline.RaisedState`); or normal completion with the full command sequence and the cleaned-up file set |
| Script.Resample | src/main.py:31-87 | once the rate is known, the run ends as `Pipeline.StagesEnded` says, an exception with the exact commands and files of `Pipeline.RaisedState` |
| Script.ResampleStage | src/main.py:31 | the resampling either adds exactly the map's names after a succeeding plan, or ends the run raising its failing command with the files the earlier conversions wrote |
| Script.Produce | src/main.py:33-87 | after the resampling, the mix, the effects and the cleanup end the run as `Pipeline.StagesEnded` says; an exception leaves the binaural file, the output and the intermediates its stage wrote |
| Script.Run | src/main.py:16-87 | creates `build`; a rejected effect raises before any command; without a binaural argument and effects there is nothing to do and nothing runs; otherwise the run ends as `Pipeline.ProcessEnded` says |
| Plot.FormatRepeat | src/plot.py:54-65 | no repeat shows as "1x"; a text ends in 'x' exactly for no repeat or a count, in 's' exactly for a duration, and is "infinite" exactly for an endless repeat; "-" is never shown |
| Plot.NoRepeatShowsAsOnce | src/plot.py:55-60 | no repeat shows the same as a count of 1 |
| Plot.CountRoundTrip | src/plot.py:59-60 | a count's display parses back to the same repeat |
| Plot.DurationRoundTrip | src/plot.py:61-62 | a duration's display parses back to the same repeat when its number prints back |
| Plot.EndlessIsNotReparsed | src/plot.py:63-64 | "infinite" is not what the parser accepts: it reads only `inf` |
| Plot.InsertByOffset | src/plot.py:67 | inserting adds the effect: one more row with the same multiset plus it |
| Plot.SortByOffset | src/plot.py:67 | sorting keeps the same effects, as a multiset |
| Plot.WithOffsetAppend | src/plot.py:67 | picking the effects with one offset distributes over concatenation |
| Plot.InsertKeepsSorted | src/plot.py:67 | inserting into an offset-sorted list keeps it sorted |
| Plot.SortIsSorted | src/plot.py:67 | `sorted(..., key=offset)` is ordered by offset |
| Plot.InsertStable | src/plot.py:67 | an inserted effect goes after the effects with an equal offset |
| Plot.InsertStableStep | src/plot.py:67 | inserting before a last element with a larger offset keeps the order of the effects with any one offset |
| Plot.SortIsStable | src/plot.py:67 | the sort is stable: effects with equal offsets keep their input order |
| Plot.EffectsTable | src/plot.py:67-72 | one row per effect, in non-decreasing offset order |
| Plot.TableShowsEveryEffect | src/plot.py:67-72 | the rows are the sorted effects, a permutation of the input, each showing its file, gain, offset and formatted repeat |
| Plot.ScaledEnds | src/plot.py:20 | the step fraction is 0 at the first point and the whole span at the last |
| Plot.ScaledMonotone | src/plot.py:20 | the step fraction moves in the direction of the span |
| Plot.SweepPoints | src/plot.py:19-20 | `steps == 1` divides by zero and raises; otherwise there are `steps` points, none when `steps` is negative |
| Plot.SweepEndpoints | src/plot.py:19-20 | the sweep starts at the start frequency and ends at the end frequency |
| Plot.SweepMonotone | src/plot.py:19-20 | the sweep points rise for a rising sweep and fall for a falling one |
| Plot.SweepWithin | src/plot.py:19-20 | every sweep point lies between the start and the end frequency |
| Plot.TimePoints | src/plot.py:24 | `steps == 1` raises; otherwise there are `steps` time marks |
| Plot.TimePointsEnds | src/plot.py:24 | the time marks run from 0 to the duration truncated |
| Plot.TimePointsMonotone | src/plot.py:24 | the time marks never decrease and are never negative |
| Plot.BarPosInRange | src/plot.py:37 | a frequency within the range marks a cell of the 32-cell bar; the low end marks the first cell and the high end the last |
| Plot.BarPosMonotone | src/plot.py:37 | a higher frequency never marks an earlier cell |
| Plot.StarsCounted | src/plot.py:38-39 | counting the stars of a bar with one marked cell gives 1 |
| Plot.BarHasOneStar | src/plot.py:38-39 | a bar is 32 cells with exactly one '*', at the marked cell |
| Plot.FreqBar | src/plot.py:34-40 | builds each line's bar in place, giving exactly the bars of `Plot.BarLines` |
| Plot.PlotBinauralSweep | src/plot.py:5-45 | `steps == 1` raises; otherwise the sweep table and both channels' bars are the sweep points, the time marks and their bars |
| Plot.SweepBarsTravel | src/plot_binaural.py:30-36 | one bar per step, each with one star; the star starts at the sweep's start end, finishes at its other end, and moves only in the sweep's direction |

## Left out

- Printing. The messages of `main` and every `print` of the plots are left out. Column widths and number formats are left out too. The plots are modelled as the rows and bars they print.
- `float()`, `int()`, `str()` of a float and the `:+g` format are parameters (`Numbers.Conversions`), not definitions. Properties that depend on them state what they need as a precondition.
- Float rounding and NaN are not modelled. Floats are exact reals. The sweep and time points are exact, and `int()` truncates an exact value.
- Plot.FreqBar: it requires every frequency to lie between the start and the end. Its only caller passes sweep points, which do (`Plot.SweepWithin`). Outside the range the source's index would fall outside the bar, or wrap around for a negative index; that case is not modelled.
- Plot.PlotBinauralSweep: a negative `steps` gives empty lists, as Python's `range` does. No caller of either plot function appears in the source.
- Plot.FormatRepeat: the `"-"` fallback is unreachable, because every repeat mode is handled.
- Engine.Engine.Sox: a failing `sox` command is assumed to leave every file as it was. A real `sox` can leave a partly written output, or delete an output it had already opened; that covers the temporary file `NamedTemporaryFile` created before the call and a `build/tmp_effect_i.wav` or `build/binaural.wav` left by an earlier run. The failure file sets of `Pipeline.BinauralEnded`, `Pipeline.EffectsEnded`, `Pipeline.RaisedState` and `Effects.OverlayEffect`, and the finding below, rest on this assumption.
- The audio content itself is left out. That covers what `sox` and `soxi` compute, real durations, sample rates and audio formats. A command's success is a fixed function of its tokens, and `soxi`'s output a fixed function of its query.
- `soxi`'s exit status and standard error are ignored, as the source ignores them. Only its standard output is used.
- Concurrency is left out, including other processes that change the build directory. `os.path.exists` is the file set of `Engine.Engine`.
- The command-line parser in `cli.py` is left out: `main` receives the parsed arguments. So is `argparse`'s own checking, and the `--version` flag.
- `tempfile`'s naming is left out. A temporary file is some fresh `/tmp/...wav` path.
- `KeyboardInterrupt` and errors that the source does not raise itself are left out. Examples are a missing `sox` binary and a permission error.

## Findings

| source | as written | input that shows it | evidently intended | confidence | as-written member | corrected member |
|---|---|---|---|---|---|---|
| src/effects.py:108-112 | the repeat render runs before the `try` whose `finally` removes the temporary files, so when `sox ... repeat N` fails the repeat's temporary file is never removed | an effect with `repeat=3x` whose repeat command exits non-zero before it opens its output, for instance because the effect file cannot be read: `CalledProcessError` is raised and the `/tmp/...wav` file stays | every temporary file of an overlay is removed on every path | not executed | Effects.RepeatTempLeaks | Effects.OverlayEffectReleasing |
