/** Speech recognition through a cached Whisper model (services/speech_to_text.py).
    The model constructor and its transcribe call are external; they are
    parameters here and may fail (None). */
module SpeechToText {
  import opened Wrappers
  import opened Text

  /** WhisperConfig, a frozen dataclass: equality is field by field. */
  datatype WhisperConfig = WhisperConfig(
    modelSize: string,
    language: Option<string>,
    beamSize: int,
    vadFilter: bool,
    useGpu: bool)

  /** WhisperConfig(): the configuration transcribe_audio uses when it is
      given none. */
  const DefaultConfig := WhisperConfig("medium", Some("ru"), 5, true, false)

  datatype Device = Cuda | Cpu
  datatype ComputeType = Float16 | Int8

  /** The device and precision a model is loaded with: half precision on the
      GPU, 8-bit integers on the CPU. */
  function DeviceFor(useGpu: bool): (r: (Device, ComputeType))
    ensures r.0 == Cuda <==> useGpu
    ensures r.1 == Float16 <==> r.0 == Cuda
  {
    if useGpu then (Cuda, Float16) else (Cpu, Int8)
  }

  /** WhisperModel(model_size, device=..., compute_type=...); None when the
      constructor raises. */
  type ModelLoader<M> = (string, Device, ComputeType) -> Option<M>

  /** model.transcribe(path, vad_filter=..., beam_size=..., language=...): the
      texts of the recognised segments in time order; None when it raises. */
  type Recogniser<!M> = (M, string, bool, int, Option<string>) -> Option<seq<string>>

  /** The module globals _model and _model_cfg. */
  class ModelCache<M> {
    var model: Option<M>
    var modelCfg: Option<WhisperConfig>
    /** How many times a model has been constructed. */
    ghost var loads: nat

    /** Both globals are set together or not at all. */
    ghost predicate Valid()
      reads this
    {
      model.Some? <==> modelCfg.Some?
    }

    /** The state at import time: nothing cached. */
    constructor ()
      ensures Valid() && model == None && modelCfg == None && loads == 0
    {
      model := None;
      modelCfg := None;
      loads := 0;
    }

    ghost predicate Hit(cfg: WhisperConfig)
      reads this
    {
      model.Some? && modelCfg == Some(cfg)
    }

    /** _get_model: reuse the cached model when it was built for the same
        configuration, otherwise construct one and remember it with its
        configuration (both globals are left alone when construction fails). */
    method GetModel(cfg: WhisperConfig, load: ModelLoader<M>) returns (r: Option<M>)
      requires Valid()
      modifies this
      ensures Valid()
      ensures old(Hit(cfg)) ==>
        r == old(model) && model == old(model) && modelCfg == old(modelCfg) && loads == old(loads)
      ensures !old(Hit(cfg)) ==>
        && loads == old(loads) + 1
        && r == load(cfg.modelSize, DeviceFor(cfg.useGpu).0, DeviceFor(cfg.useGpu).1)
        && (r.Some? ==> model == r && modelCfg == Some(cfg))
        && (r.None? ==> model == old(model) && modelCfg == old(modelCfg))
      ensures r.Some? ==> Hit(cfg) && model == r
    {
      if model.Some? && modelCfg == Some(cfg) {
        return model;
      }
      var device, computeType;
      if cfg.useGpu {
        device, computeType := Cuda, Float16;
      } else {
        device, computeType := Cpu, Int8;
      }
      loads := loads + 1;
      r := load(cfg.modelSize, device, computeType);
      if r.Some? {
        model := r;
        modelCfg := Some(cfg);
      }
    }

    /** A repeated request with the same configuration is served from the
        cache: it constructs nothing and returns the same model. */
    method RepeatedRequest(cfg: WhisperConfig, load: ModelLoader<M>) returns (first: Option<M>, second: Option<M>)
      requires Valid()
      modifies this
      ensures Valid()
      ensures first.Some? ==> second == first && loads == old(loads) + (if old(Hit(cfg)) then 0 else 1)
    {
      first := GetModel(cfg, load);
      second := GetModel(cfg, load);
    }

    /** transcribe_audio: obtain the model, run it, and join the segment texts. */
    method TranscribeAudio(audioPath: string, cfg: WhisperConfig, load: ModelLoader<M>, recognise: Recogniser<M>)
      returns (text: Option<string>)
      requires Valid()
      modifies this
      ensures Valid()
      ensures !old(Hit(cfg)) ==> loads == old(loads) + 1
      ensures old(Hit(cfg)) ==> loads == old(loads) && model == old(model)
      ensures text.Some? ==>
        && Hit(cfg)
        && recognise(model.value, audioPath, cfg.vadFilter, cfg.beamSize, cfg.language).Some?
        && text.value == SegmentText(recognise(model.value, audioPath, cfg.vadFilter, cfg.beamSize, cfg.language).value)
      ensures text.None? ==>
        || !Hit(cfg)
        || recognise(model.value, audioPath, cfg.vadFilter, cfg.beamSize, cfg.language).None?
    {
      var m := GetModel(cfg, load);
      if m.None? {
        return None;
      }
      var segments := recognise(m.value, audioPath, cfg.vadFilter, cfg.beamSize, cfg.language);
      if segments.None? {
        return None;
      }
      text := Some(SegmentText(segments.value));
    }
  }

  /** The segment texts that take part: empty ones are skipped, the rest are
      stripped, in order. */
  function KeptPieces(segments: seq<string>): (r: seq<string>)
    ensures |r| <= |segments|
    ensures forall k :: 0 <= k < |r| ==> Trimmed(r[k])
  {
    if |segments| == 0 then []
    else
      StripSpec(segments[0]);
      (if segments[0] != "" then [Strip(segments[0])] else []) + KeptPieces(segments[1..])
  }

  /** The transcript: the kept pieces joined with single spaces, with the
      whitespace at either end of the result removed. It never starts or
      ends with whitespace, and no segments give "". */
  function SegmentText(segments: seq<string>): (r: string)
    ensures Trimmed(r)
    ensures segments == [] ==> r == ""
  {
    StripSpec(Join(" ", KeptPieces(segments)));
    Strip(Join(" ", KeptPieces(segments)))
  }

  /** Skipping and stripping go segment by segment and keep their order. */
  lemma {:induction false} KeptPiecesConcat(a: seq<string>, b: seq<string>)
    ensures KeptPieces(a + b) == KeptPieces(a) + KeptPieces(b)
  {
    if |a| > 0 {
      assert (a + b)[1..] == a[1..] + b;
      KeptPiecesConcat(a[1..], b);
    } else {
      assert a + b == b;
    }
  }

  /** Without a configuration the model runs on the CPU with 8-bit integers,
      Russian as the language, a beam of five and voice-activity filtering. */
  lemma DefaultRunsOnCpu()
    ensures DeviceFor(DefaultConfig.useGpu) == (Cpu, Int8)
    ensures DefaultConfig.language == Some("ru") && DefaultConfig.beamSize == 5 && DefaultConfig.vadFilter
  {
  }

  lemma {:induction false} JoinTrimmed(pieces: seq<string>)
    requires forall k :: 0 <= k < |pieces| ==> pieces[k] != "" && Trimmed(pieces[k])
    ensures Trimmed(Join(" ", pieces))
    ensures |pieces| > 0 ==> Join(" ", pieces) != ""
  {
    if |pieces| > 1 {
      JoinTrimmed(pieces[1..]);
      var rest := Join(" ", pieces[1..]);
      var j := pieces[0] + " " + rest;
      assert j[0] == pieces[0][0];
      assert j[|j| - 1] == rest[|rest| - 1];
    }
  }

  /** When no segment is blank, the transcript is the stripped segment texts
      joined with exactly one space each, in segment order. */
  lemma {:induction false} SegmentTextJoinsPieces(segments: seq<string>)
    requires forall k :: 0 <= k < |segments| ==> Strip(segments[k]) != ""
    ensures KeptPieces(segments) == seq(|segments|, k requires 0 <= k < |segments| => Strip(segments[k]))
    ensures SegmentText(segments) == Join(" ", KeptPieces(segments))
  {
    if |segments| > 0 {
      SegmentTextJoinsPieces(segments[1..]);
      assert segments[0] != "";
    }
    var pieces := KeptPieces(segments);
    forall k | 0 <= k < |pieces|
      ensures pieces[k] != "" && Trimmed(pieces[k])
    {
      StripSpec(segments[k]);
    }
    JoinTrimmed(pieces);
    StripTrimmed(Join(" ", pieces));
  }
}
