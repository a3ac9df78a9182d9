/**
 * Voice-model resolution: the three quality tiers probed in a fixed order,
 * each with its own model file and sample rate. The filesystem is the set of
 * paths that exist; a directory is its path with a trailing slash.
 */
module Voices {
  import opened Wrappers

  datatype Tier = Low | Medium | High

  /** The tier's directory and file-name component. */
  function TierName(t: Tier): string {
    match t
    case Low => "low"
    case Medium => "medium"
    case High => "high"
  }

  /** Probe order: low first, high last. */
  function Rank(t: Tier): nat {
    match t
    case Low => 0
    case Medium => 1
    case High => 2
  }

  /** Native sample rate of a tier's model, in Hz. */
  function SampleRate(t: Tier): nat {
    if t == Low then 16000 else 22050
  }

  const VoicesRoot: string := "./piper-voices/"

  /** `./piper-voices/<model>/<tier>/`, the directory whose existence selects a tier. */
  function TierDir(model: string, t: Tier): string {
    VoicesRoot + model + "/" + TierName(t) + "/"
  }

  /** `./piper-voices/<model>/<tier>/en_<model>-<tier>.onnx`, the tier's model file. */
  function ModelFile(model: string, t: Tier): string {
    TierDir(model, t) + "en_" + model + "-" + TierName(t) + ".onnx"
  }

  /** A resolved voice: the tier chosen, its model file and its sample rate. */
  datatype Voice = Voice(tier: Tier, path: string, rate: nat)

  /**
   * The first tier, in probe order, whose directory exists. Whether its model
   * file exists is not looked at here.
   */
  function Resolve(paths: set<string>, model: string): (v: Option<Voice>)
    ensures v.Some? <==> exists t :: TierDir(model, t) in paths
    ensures v.Some? ==> TierDir(model, v.value.tier) in paths
    ensures v.Some? ==> v.value.path == ModelFile(model, v.value.tier)
    ensures v.Some? ==> v.value.rate == SampleRate(v.value.tier)
    ensures v.Some? ==> forall t :: Rank(t) < Rank(v.value.tier) ==> TierDir(model, t) !in paths
  {
    if TierDir(model, Low) in paths then Some(Voice(Low, ModelFile(model, Low), 16000))
    else if TierDir(model, Medium) in paths then Some(Voice(Medium, ModelFile(model, Medium), 22050))
    else if TierDir(model, High) in paths then Some(Voice(High, ModelFile(model, High), 22050))
    else None
  }

  /** Each tier is chosen exactly when its directory exists and no earlier tier's does. */
  lemma TierPrecedence(paths: set<string>, model: string)
    ensures TierDir(model, Low) in paths ==>
      Resolve(paths, model) == Some(Voice(Low, ModelFile(model, Low), 16000))
    ensures (Resolve(paths, model).Some? && Resolve(paths, model).value.tier == Medium)
      <==> TierDir(model, Low) !in paths && TierDir(model, Medium) in paths
    ensures (Resolve(paths, model).Some? && Resolve(paths, model).value.tier == High)
      <==> TierDir(model, Low) !in paths && TierDir(model, Medium) !in paths && TierDir(model, High) in paths
    ensures Resolve(paths, model).Some? && Resolve(paths, model).value.tier != Low ==>
      Resolve(paths, model).value.rate == 22050
  {
  }

  /** Every voice path begins with the voices root. */
  lemma VoicePathsUnderRoot(model: string, t: Tier)
    ensures VoicesRoot <= TierDir(model, t)
    ensures VoicesRoot <= ModelFile(model, t)
  {
    var dir := TierDir(model, t);
    assert dir == VoicesRoot + (model + "/" + TierName(t) + "/");
    assert dir[..|VoicesRoot|] == VoicesRoot;
    var file := ModelFile(model, t);
    assert file == dir + ("en_" + model + "-" + TierName(t) + ".onnx");
    assert file[..|dir|] == dir;
    assert file[..|VoicesRoot|] == dir[..|VoicesRoot|];
  }

  /** Resolution reads only the tier directories of the model. */
  lemma ResolveReadsTierDirs(p1: set<string>, p2: set<string>, model: string)
    requires forall t :: TierDir(model, t) in p1 <==> TierDir(model, t) in p2
    ensures Resolve(p1, model) == Resolve(p2, model)
  {
    assert TierDir(model, Low) in p1 <==> TierDir(model, Low) in p2;
    assert TierDir(model, Medium) in p1 <==> TierDir(model, Medium) in p2;
    assert TierDir(model, High) in p1 <==> TierDir(model, High) in p2;
  }
}
