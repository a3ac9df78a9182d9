/**
 * The TTS request handler: argument check, sanitisation, voice resolution,
 * cache lookup and the generate-and-finalise file lifecycle.
 *
 * `Handle` states what one request does to the host (the set of existing
 * paths, the deletions scheduled with a timer and the external engine runs
 * started); `AppService.GetTTS` performs the same request step by step on
 * mutable state and is proved equal to it. The synthesis engine and the audio
 * transcoder are opaque: each run is given as a `ProcessRun` saying whether
 * the process exited with status 0 and whether it wrote its output file. The
 * MD5 digest is an arbitrary function from text to text.
 */
module Service {
  import opened Wrappers
  import opened JsText
  import opened Sanitizer
  import opened Voices

  const CacheRoot: string := "./piper_cache/"
  /** Delay before the finished file is unlinked ("cached for 2 minutes"). */
  const CacheRetentionMs: nat := 120000

  /** `./piper_cache/<key>.wav`: the file the synthesis engine writes and the cache lookup probes. */
  function RawPath(key: string): string {
    CacheRoot + key + ".wav"
  }

  /** `./piper_cache/<key>-f.wav`: the pitch-shifted file the transcoder writes and the handler returns. */
  function FinalPath(key: string): string {
    CacheRoot + key + "-f.wav"
  }

  /** `asetrate=<rate>*<pitch>,aresample=<rate>,atempo=1/<pitch>`: resample up, back down, stretch time back. */
  function PitchFilter(rate: nat, pitch: int): string {
    "asetrate=" + IntToDecimal(rate) + "*" + IntToDecimal(pitch)
    + ",aresample=" + IntToDecimal(rate)
    + ",atempo=1/" + IntToDecimal(pitch)
  }

  /** Query parameters `model` and `pitch` and the body's `message`; `None` is null or undefined. */
  datatype Request = Request(model: Option<string>, pitch: Option<string>, message: Option<string>)

  /** What one external process did: its exit status, whether it wrote its output file, its output streams. */
  datatype ProcessRun = ProcessRun(exitedZero: bool, wroteOutput: bool, stdout: string, stderr: string)

  /** The world outside the handler for one request: the digest function and the two engine runs. */
  datatype Externals = Externals(md5: string -> string, piper: ProcessRun, ffmpeg: ProcessRun)

  /** An external engine started by the handler, with the arguments that matter. */
  datatype EngineCall =
    | Synthesize(modelPath: string, text: string, output: string)
    | Transcode(input: string, filter: string, output: string)

  /** A `setTimeout` that will unlink `path` after `delayMs` milliseconds. */
  datatype Deletion = Deletion(path: string, delayMs: nat)

  /** The external step whose promise rejected. */
  datatype Stage = Synthesis | Transcoding

  /** What the handler answers. */
  datatype Outcome =
    | MissingArgs                  // the text "missing args"
    | ModelNotFound                // the text "model not found"
    | CacheHit(file: string)       // a stream of a cached file
    | Generated(file: string)      // a stream of the file just made
    | SynthesisFailed(report: string)  // the text "<stderr> - <stdout>"
    | Rejected(stage: Stage)       // an awaited engine exited non-zero: the returned promise rejects

  /** The part of the host a request can observe or change. */
  datatype HostState = HostState(paths: set<string>, timers: seq<Deletion>, calls: seq<EngineCall>)

  datatype Reply = Reply(outcome: Outcome, host: HostState)

  /** One external process run: it is recorded, and its output path exists afterwards if it wrote it. */
  function Run(h: HostState, call: EngineCall, run: ProcessRun): HostState {
    h.(paths := if run.wroteOutput then h.paths + {call.output} else h.paths,
       calls := h.calls + [call])
  }

  /** Synthesis, then, if it produced its file, transcoding, unlinking the raw file and scheduling the deletion. */
  function Generate(h: HostState, s: Sanitized, modelPath: string, rate: nat, key: string,
                    piper: ProcessRun, ffmpeg: ProcessRun): Reply {
    var raw := RawPath(key);
    var h1 := Run(h, Synthesize(modelPath, s.message, raw), piper);
    if !piper.exitedZero then Reply(Rejected(Synthesis), h1)
    else if raw !in h1.paths then Reply(SynthesisFailed(piper.stderr + " - " + piper.stdout), h1)
    else
      var fin := FinalPath(key);
      var h2 := Run(h1, Transcode(raw, PitchFilter(rate, s.pitch), fin), ffmpeg);
      if !ffmpeg.exitedZero then Reply(Rejected(Transcoding), h2)
      else Reply(Generated(fin), h2.(paths := h2.paths - {raw},
                                    timers := h2.timers + [Deletion(fin, CacheRetentionMs)]))
  }

  /** Resolution, cache lookup and generation for a request with sanitised fields `s`. */
  function Serve(h: HostState, s: Sanitized, x: Externals): Reply {
    var voice := Resolve(h.paths, s.model);
    if voice.None? || voice.value.path !in h.paths then Reply(ModelNotFound, h)
    else
      var key := x.md5(KeyText(s));
      if RawPath(key) in h.paths then Reply(CacheHit(RawPath(key)), h)
      else Generate(h, s, voice.value.path, voice.value.rate, key, x.piper, x.ffmpeg)
  }

  /** One request, from the host before it to the outcome and the host after it. */
  function Handle(h: HostState, req: Request, x: Externals): Reply {
    if req.model.None? || req.message.None? then Reply(MissingArgs, h)
    else Serve(h, Sanitize(req.model.value, req.pitch, req.message.value), x)
  }

  // ---------------------------------------------------------------------
  // Paths in the cache directory are never voice paths.
  // ---------------------------------------------------------------------

  lemma CachePathIsNotVoicePath(c: string, v: string)
    requires CacheRoot <= c && VoicesRoot <= v
    ensures c != v
  {
    assert c[7] == CacheRoot[7] == '_';
    assert v[7] == VoicesRoot[7] == '-';
  }

  lemma CacheFilesUnderRoot(key: string)
    ensures CacheRoot <= RawPath(key) && CacheRoot <= FinalPath(key)
    ensures RawPath(key) != FinalPath(key)
  {
    assert RawPath(key) == CacheRoot + (key + ".wav");
    assert FinalPath(key) == CacheRoot + (key + "-f.wav");
  }

  /** Changing only the two cache files of a key leaves every voice path as it was. */
  lemma VoicePathsUnaffected(p1: set<string>, p2: set<string>, key: string, model: string)
    requires forall q :: q != RawPath(key) && q != FinalPath(key) ==> (q in p1 <==> q in p2)
    ensures Resolve(p1, model) == Resolve(p2, model)
    ensures forall t :: ModelFile(model, t) in p1 <==> ModelFile(model, t) in p2
  {
    CacheFilesUnderRoot(key);
    forall t | true
      ensures TierDir(model, t) in p1 <==> TierDir(model, t) in p2
      ensures ModelFile(model, t) in p1 <==> ModelFile(model, t) in p2
    {
      VoicePathsUnderRoot(model, t);
      CachePathIsNotVoicePath(RawPath(key), TierDir(model, t));
      CachePathIsNotVoicePath(FinalPath(key), TierDir(model, t));
      CachePathIsNotVoicePath(RawPath(key), ModelFile(model, t));
      CachePathIsNotVoicePath(FinalPath(key), ModelFile(model, t));
    }
    ResolveReadsTierDirs(p1, p2, model);
  }

  // ---------------------------------------------------------------------
  // The order in which outcomes are decided.
  // ---------------------------------------------------------------------

  /**
   * "missing args" exactly when model or message is null, whatever the host holds;
   * then nothing changes and no engine runs. Otherwise the sanitised request is served.
   */
  lemma MissingArgsFirst(h: HostState, req: Request, x: Externals)
    ensures Handle(h, req, x).outcome.MissingArgs? <==> req.model.None? || req.message.None?
    ensures req.model.None? || req.message.None? ==> Handle(h, req, x) == Reply(MissingArgs, h)
    ensures req.model.Some? && req.message.Some? ==>
      Handle(h, req, x) == Serve(h, Sanitize(req.model.value, req.pitch, req.message.value), x)
  {
    if req.model.Some? && req.message.Some? {
      ServeNeverMissingArgs(h, Sanitize(req.model.value, req.pitch, req.message.value), x);
    }
  }

  lemma ServeNeverMissingArgs(h: HostState, s: Sanitized, x: Externals)
    ensures !Serve(h, s, x).outcome.MissingArgs?
  {
  }

  /**
   * "model not found" exactly when no tier directory exists or the first existing
   * tier's model file is absent; it is decided before the cache is looked at, and
   * then nothing changes and no engine runs.
   */
  lemma ModelNotFoundWhen(h: HostState, s: Sanitized, x: Externals)
    ensures var v := Resolve(h.paths, s.model);
      Serve(h, s, x).outcome.ModelNotFound? <==> v.None? || v.value.path !in h.paths
    ensures Serve(h, s, x).outcome.ModelNotFound? ==> Serve(h, s, x).host == h
  {
  }

  /** The first existing tier directory with a missing model file: not found, whatever later tiers hold. */
  lemma NoTierFallThrough(h: HostState, s: Sanitized, x: Externals, t: Tier)
    requires TierDir(s.model, t) in h.paths
    requires forall u :: Rank(u) < Rank(t) ==> TierDir(s.model, u) !in h.paths
    requires ModelFile(s.model, t) !in h.paths
    ensures Serve(h, s, x).outcome == ModelNotFound
  {
    assert Resolve(h.paths, s.model).Some?;
  }

  /** The controller's test request: a model with no voice directory is not found. */
  lemma UnknownModelNotFound(h: HostState, x: Externals)
    requires forall t :: TierDir("nonexistent_model_name", t) !in h.paths
    ensures Handle(h, Request(Some("nonexistent_model_name"), Some("0"), Some("Hello, world!")), x).outcome
      == ModelNotFound
  {
    var req := Request(Some("nonexistent_model_name"), Some("0"), Some("Hello, world!"));
    var s := Sanitize(req.model.value, req.pitch, req.message.value);
    StripCmdNeedsHead("nonexistent_model_name");
    assert s.model == "nonexistent_model_name";
    MissingArgsFirst(h, req, x);
    ModelNotFoundWhen(h, s, x);
  }

  /**
   * Once the voice is found the cache decides: a hit exactly when `<key>.wav`
   * exists. A hit names that file, runs no engine and changes nothing.
   */
  lemma CacheHitWhen(h: HostState, s: Sanitized, x: Externals)
    requires Serve(h, s, x).outcome != ModelNotFound
    ensures Serve(h, s, x).outcome.CacheHit? <==> RawPath(x.md5(KeyText(s))) in h.paths
    ensures Serve(h, s, x).outcome.CacheHit? ==>
      Serve(h, s, x) == Reply(CacheHit(RawPath(x.md5(KeyText(s)))), h)
  {
    var key := x.md5(KeyText(s));
    if RawPath(key) !in h.paths {
      GenerateNeverHits(h, s, Resolve(h.paths, s.model).value, key, x.piper, x.ffmpeg);
    }
  }

  lemma GenerateNeverHits(h: HostState, s: Sanitized, v: Voice, key: string, piper: ProcessRun, ffmpeg: ProcessRun)
    ensures !Generate(h, s, v.path, v.rate, key, piper, ffmpeg).outcome.CacheHit?
    ensures !Generate(h, s, v.path, v.rate, key, piper, ffmpeg).outcome.ModelNotFound?
  {
  }

  /**
   * Requests with the same key text share a cache hit, whatever their models,
   * messages and pitches, as soon as the second one's voice is found.
   */
  lemma SharedKeyTextSharesHit(h: HostState, s1: Sanitized, s2: Sanitized, x: Externals)
    requires KeyText(s1) == KeyText(s2) && Serve(h, s2, x).outcome != ModelNotFound
    requires Serve(h, s1, x).outcome.CacheHit?
    ensures Serve(h, s2, x).outcome == Serve(h, s1, x).outcome
  {
    var key := x.md5(KeyText(s1));
    if RawPath(key) !in h.paths {
      GenerateNeverHits(h, s1, Resolve(h.paths, s1.model).value, key, x.piper, x.ffmpeg);
    }
  }

  // ---------------------------------------------------------------------
  // The generate-and-finalise lifecycle.
  // ---------------------------------------------------------------------

  /**
   * A generated reply: both engines exited cleanly and synthesis wrote its file; the
   * engines ran in order with the resolved model and the pitch filter; `<key>.wav`
   * is gone, `<key>-f.wav` is returned and exists if the transcoder wrote it; exactly
   * one deletion of it is scheduled after 120000 ms.
   */
  lemma GeneratedLifecycle(h: HostState, s: Sanitized, x: Externals)
    requires Serve(h, s, x).outcome.Generated?
    ensures var v := Resolve(h.paths, s.model).value;
      var key := x.md5(KeyText(s));
      var after := Serve(h, s, x).host;
      && Serve(h, s, x).outcome == Generated(FinalPath(key))
      && x.piper.exitedZero && x.piper.wroteOutput && x.ffmpeg.exitedZero
      && RawPath(key) !in after.paths
      && after.paths == h.paths + (if x.ffmpeg.wroteOutput then {FinalPath(key)} else {})
      && after.timers == h.timers + [Deletion(FinalPath(key), 120000)]
      && after.calls == h.calls + [Synthesize(v.path, s.message, RawPath(key)),
                                   Transcode(RawPath(key), PitchFilter(v.rate, s.pitch), FinalPath(key))]
  {
    var key := x.md5(KeyText(s));
    CacheFilesUnderRoot(key);
  }

  /** Synthesis that exits cleanly without writing its file: the report is "<stderr> - <stdout>" and no transcoder runs. */
  lemma SynthesisFailedReport(h: HostState, s: Sanitized, x: Externals)
    requires Serve(h, s, x).outcome.SynthesisFailed?
    ensures var after := Serve(h, s, x).host;
      && Serve(h, s, x).outcome.report == x.piper.stderr + " - " + x.piper.stdout
      && x.piper.exitedZero && !x.piper.wroteOutput
      && after.paths == h.paths && after.timers == h.timers
      && after.calls == h.calls + [Synthesize(Resolve(h.paths, s.model).value.path, s.message,
                                              RawPath(x.md5(KeyText(s))))]
  {
  }

  /** On a cache miss the handler generates exactly when both engines exit cleanly and synthesis writes its file. */
  lemma GeneratedWhen(h: HostState, s: Sanitized, x: Externals)
    requires Serve(h, s, x).outcome != ModelNotFound
    requires RawPath(x.md5(KeyText(s))) !in h.paths
    ensures Serve(h, s, x).outcome.Generated?
      <==> x.piper.exitedZero && x.piper.wroteOutput && x.ffmpeg.exitedZero
  {
  }

  /**
   * The lookup probes `<key>.wav` but generation deletes that file and keeps
   * `<key>-f.wav`, so the same request repeated never hits the cache: the voice
   * still resolves and the synthesis engine runs again.
   */
  lemma RepeatedRequestMisses(h: HostState, s: Sanitized, x: Externals, y: Externals)
    requires Serve(h, s, x).outcome.Generated?
    requires y.md5 == x.md5
    ensures var first := Serve(h, s, x).host;
      var again := Serve(first, s, y);
      && !again.outcome.CacheHit?
      && !again.outcome.ModelNotFound?
      && again.host.calls[|first.calls|] == Synthesize(
           Resolve(h.paths, s.model).value.path, s.message, RawPath(x.md5(KeyText(s))))
  {
    var key := x.md5(KeyText(s));
    var first := Serve(h, s, x).host;
    GeneratedLifecycle(h, s, x);
    CacheFilesUnderRoot(key);
    assert forall q :: q != RawPath(key) && q != FinalPath(key) ==> (q in h.paths <==> q in first.paths);
    VoicePathsUnaffected(h.paths, first.paths, key, s.model);
    var v := Resolve(first.paths, s.model).value;
    GenerateNeverHits(first, s, v, key, y.piper, y.ffmpeg);
  }

  /**
   * When the transcoder exits non-zero the raw file is not unlinked, so the same
   * request repeated is a cache hit on the un-shifted synthesis output.
   */
  lemma TranscodeFailureCachesRaw(h: HostState, s: Sanitized, x: Externals, y: Externals)
    requires Serve(h, s, x).outcome == Rejected(Transcoding)
    requires y.md5 == x.md5
    ensures Serve(Serve(h, s, x).host, s, y) == Reply(CacheHit(RawPath(x.md5(KeyText(s)))), Serve(h, s, x).host)
  {
    var key := x.md5(KeyText(s));
    var first := Serve(h, s, x).host;
    CacheFilesUnderRoot(key);
    assert RawPath(key) in first.paths;
    assert forall q :: q != RawPath(key) && q != FinalPath(key) ==> (q in h.paths <==> q in first.paths);
    VoicePathsUnaffected(h.paths, first.paths, key, s.model);
  }

  // ---------------------------------------------------------------------
  // The service object: the same request, step by step, on mutable state.
  // ---------------------------------------------------------------------

  class AppService {
    /** The paths that exist on disk. */
    var paths: set<string>
    /** Deletions scheduled with `setTimeout`, oldest first. */
    var timers: seq<Deletion>
    /** External engine runs started, oldest first. */
    var calls: seq<EngineCall>

    function State(): HostState
      reads this
    {
      HostState(paths, timers, calls)
    }

    constructor (existing: set<string>)
      ensures State() == HostState(existing, [], [])
    {
      paths, timers, calls := existing, [], [];
    }

    /** Starts one external process and awaits it. */
    method RunEngine(call: EngineCall, run: ProcessRun)
      modifies this
      ensures State() == Run(old(State()), call, run)
    {
      calls := calls + [call];
      if run.wroteOutput {
        paths := paths + {call.output};
      }
    }

    /** `getTTS`: answers one request and updates the host as `Handle` says. */
    method GetTTS(model: Option<string>, pitch: Option<string>, message: Option<string>, x: Externals)
      returns (outcome: Outcome)
      modifies this
      ensures Reply(outcome, State()) == Handle(old(State()), Request(model, pitch, message), x)
    {
      if model.None? || message.None? {
        return MissingArgs;
      }
      var s := Sanitize(model.value, pitch, message.value);
      outcome := ServeSanitized(s, x);
    }

    /** Voice resolution, cache lookup and, on a miss, generation, for sanitised fields `s`. */
    method ServeSanitized(s: Sanitized, x: Externals) returns (outcome: Outcome)
      modifies this
      ensures Reply(outcome, State()) == Serve(old(State()), s, x)
    {
      var modelPath: Option<string> := None;
      var modelRate: nat := 0;
      if TierDir(s.model, Low) in paths {
        modelPath, modelRate := Some(ModelFile(s.model, Low)), 16000;
      } else if TierDir(s.model, Medium) in paths {
        modelPath, modelRate := Some(ModelFile(s.model, Medium)), 22050;
      } else if TierDir(s.model, High) in paths {
        modelPath, modelRate := Some(ModelFile(s.model, High)), 22050;
      }
      if modelPath.None? || modelPath.value !in paths {
        return ModelNotFound;
      }

      var outFile := x.md5(KeyText(s));
      if RawPath(outFile) in paths {
        return CacheHit(RawPath(outFile));
      }
      outcome := GenerateFile(s, modelPath.value, modelRate, outFile, x.piper, x.ffmpeg);
    }

    /** Synthesis, then transcoding, unlinking the raw file and scheduling the deletion of the result. */
    method GenerateFile(s: Sanitized, modelPath: string, modelRate: nat, outFile: string,
                        piper: ProcessRun, ffmpeg: ProcessRun) returns (outcome: Outcome)
      modifies this
      ensures Reply(outcome, State()) == Generate(old(State()), s, modelPath, modelRate, outFile, piper, ffmpeg)
    {
      var raw := RawPath(outFile);
      RunEngine(Synthesize(modelPath, s.message, raw), piper);
      if !piper.exitedZero {
        return Rejected(Synthesis);
      }
      if raw in paths {
        var fin := FinalPath(outFile);
        RunEngine(Transcode(raw, PitchFilter(modelRate, s.pitch), fin), ffmpeg);
        if !ffmpeg.exitedZero {
          return Rejected(Transcoding);
        }
        paths := paths - {raw};
        timers := timers + [Deletion(fin, CacheRetentionMs)];
        return Generated(fin);
      } else {
        return SynthesisFailed(piper.stderr + " - " + piper.stdout);
      }
    }
  }
}
