/**
 * The Silero text-to-speech façade: shaping of the downloaded model catalogue, the voice
 * list, voice and speaker selection before synthesis, the guard on saving a random voice,
 * and the module-level `init()` that creates the single `tts` instance.
 * The neural model itself is an opaque object whose only modelled attribute is its
 * optional `speakers` list; loading and synthesis are supplied as their results.
 */
module SileroTts {
  import opened Wrappers

  const SampleRate: int := 48000
  const DefaultLanguage: string := "en"
  const DefaultModelId: string := "v3_en"
  const RandomSpeaker: string := "random"
  /** The pseudo-voice that list_voices appends and that selects the saved voice. */
  const LastVoice: string := "last"
  /** The class-level last_voice path (resolved against the working directory in the source). */
  const DefaultVoicePath: string := ".cache/silero-cache/voices/last_voice.pt"

  /** Synthesised samples. */
  type Audio = seq<real>

  // ---------------------------------------------------------------------------
  // The model catalogue (models.tts_models of latest_silero_models.yml)
  // ---------------------------------------------------------------------------

  /** One language of the catalogue with the ids of its models, in file order. */
  datatype LanguageModels = LanguageModels(language: string, modelIds: seq<string>)

  /** The catalogue, in file order. */
  type Catalogue = seq<LanguageModels>

  /** A mapping's keys are distinct. */
  predicate DistinctLanguages(catalogue: Catalogue) {
    forall i, j :: 0 <= i < j < |catalogue| ==> catalogue[i].language != catalogue[j].language
  }

  /** list_languages: the catalogue's languages, in order. */
  function ListLanguages(catalogue: Catalogue): (languages: seq<string>)
    ensures |languages| == |catalogue|
    ensures forall i :: 0 <= i < |catalogue| ==> languages[i] == catalogue[i].language
  {
    seq(|catalogue|, i requires 0 <= i < |catalogue| => catalogue[i].language)
  }

  /** tts_models.get(language): the model ids of that language, or None. */
  function ModelsOf(catalogue: Catalogue, language: string): Option<seq<string>> {
    if catalogue == [] then None
    else if catalogue[0].language == language then Some(catalogue[0].modelIds)
    else ModelsOf(catalogue[1..], language)
  }

  /** In a catalogue with distinct languages, get finds the entry of that language. */
  lemma {:induction false} ModelsOfEntry(catalogue: Catalogue, i: nat)
    requires DistinctLanguages(catalogue) && i < |catalogue|
    ensures ModelsOf(catalogue, catalogue[i].language) == Some(catalogue[i].modelIds)
  {
    if i > 0 {
      assert catalogue[0].language != catalogue[i].language;
      assert catalogue[1..][i - 1] == catalogue[i];
      ModelsOfEntry(catalogue[1..], i - 1);
    }
  }

  /** An insertion-ordered dict, as a list of (key, value) pairs with distinct keys. */
  type Dict<V> = seq<(string, V)>

  function Keys<V>(d: Dict<V>): (keys: seq<string>)
    ensures |keys| == |d| && forall i :: 0 <= i < |d| ==> keys[i] == d[i].0
  {
    seq(|d|, i requires 0 <= i < |d| => d[i].0)
  }

  /** A dict's keys are distinct. */
  predicate DistinctKeys<V>(d: Dict<V>) {
    forall i, j :: 0 <= i < j < |d| ==> d[i].0 != d[j].0
  }

  /** d[key] = value: overwrite in place if present, else append. */
  function Put<V>(d: Dict<V>, key: string, value: V): (r: Dict<V>)
    requires DistinctKeys(d)
    ensures DistinctKeys(r)
    ensures key !in Keys(d) ==> r == d + [(key, value)]
    ensures key in Keys(d) ==> |r| == |d| && forall i :: 0 <= i < |d| ==> r[i] == (if d[i].0 == key then (key, value) else d[i])
  {
    if d == [] then [(key, value)]
    else if d[0].0 == key then
      assert forall i :: 1 <= i < |d| ==> d[i].0 != key;
      [(key, value)] + d[1..]
    else
      assert DistinctKeys(d[1..]) by {
        forall i, j | 0 <= i < j < |d| - 1 ensures d[1..][i].0 != d[1..][j].0 {
          assert d[1..][i] == d[i + 1] && d[1..][j] == d[j + 1];
        }
      }
      assert key in Keys(d) <==> key in Keys(d[1..]) by {
        assert Keys(d) == [d[0].0] + Keys(d[1..]);
      }
      [d[0]] + Put(d[1..], key, value)
  }

  /** list_models: one entry per language, in catalogue order, holding that language's model ids. */
  method ListModels(catalogue: Catalogue) returns (modelList: Dict<seq<string>>)
    requires DistinctLanguages(catalogue)
    ensures Keys(modelList) == ListLanguages(catalogue)
    ensures forall i :: 0 <= i < |catalogue| ==> modelList[i].1 == catalogue[i].modelIds
  {
    modelList := [];
    var availableLanguages := ListLanguages(catalogue);
    for i := 0 to |availableLanguages|
      invariant |modelList| == i
      invariant forall k :: 0 <= k < i ==> modelList[k] == (catalogue[k].language, catalogue[k].modelIds)
    {
      var lang := availableLanguages[i];
      ModelsOfEntry(catalogue, i);
      var models := ModelsOf(catalogue, lang).value;
      assert lang !in Keys(modelList) by {
        forall k | 0 <= k < i
          ensures Keys(modelList)[k] != lang
        {
          assert catalogue[k].language != catalogue[i].language;
        }
      }
      modelList := Put(modelList, lang, models);
    }
  }

  /** One element of list_models_indexed. */
  datatype IndexedModels = IndexedModels(language: string, models: seq<string>)

  /** list_models_indexed: {"language", "models"} per language, in catalogue order. */
  method ListModelsIndexed(catalogue: Catalogue) returns (indexed: seq<IndexedModels>)
    requires DistinctLanguages(catalogue)
    ensures |indexed| == |catalogue|
    ensures forall i :: 0 <= i < |catalogue| ==>
              indexed[i].language == ListLanguages(catalogue)[i] && indexed[i].models == catalogue[i].modelIds
  {
    var modelList := ListModels(catalogue);
    indexed := seq(|modelList|, i requires 0 <= i < |modelList| => IndexedModels(modelList[i].0, modelList[i].1));
  }

  // ---------------------------------------------------------------------------
  // Voice selection
  // ---------------------------------------------------------------------------

  /** The speaker and voice file passed to synthesis. */
  datatype VoiceChoice = VoiceChoice(speaker: string, voicePath: Option<string>)

  /**
   * The tts_voice setting chooses the speaker: "last" is not a speaker of the model but
   * means the random speaker with the saved voice file; any other value is the speaker.
   */
  function SelectVoice(ttsVoice: string, lastVoice: string): (choice: VoiceChoice)
    ensures choice.speaker != LastVoice
    ensures choice.voicePath.Some? <==> ttsVoice == LastVoice
    ensures choice.voicePath.Some? ==> choice.voicePath.value == lastVoice && choice.speaker == RandomSpeaker
    ensures ttsVoice != LastVoice ==> choice.speaker == ttsVoice
  {
    if ttsVoice == LastVoice then VoiceChoice(RandomSpeaker, Some(lastVoice))
    else VoiceChoice(ttsVoice, None)
  }

  /** What apply_tts is called with, and the model it is called on. */
  datatype SynthRequest = SynthRequest(
    text: string, speaker: string, sampleRate: int, voicePath: Option<string>,
    language: string, modelId: string)

  /** A loaded model; `speakers` is None when the object has no such attribute. */
  class VoiceModel {
    var speakers: Option<seq<string>>

    constructor (speakers: Option<seq<string>>)
      ensures this.speakers == speakers
    {
      this.speakers := speakers;
    }
  }

  class Silero {
    var lang: string
    var modelId: string
    var model: VoiceModel?
    var speaker: string
    var lastVoice: string
    /** self.models: the catalogue read when the instance was created. */
    const models: Catalogue

    /** Silero(): `catalogue` is the content of the downloaded models file. */
    constructor (catalogue: Catalogue)
      ensures lang == DefaultLanguage && modelId == DefaultModelId && model == null
      ensures speaker == RandomSpeaker && lastVoice == DefaultVoicePath && models == catalogue
    {
      lang, modelId, model := DefaultLanguage, DefaultModelId, null;
      speaker, lastVoice := RandomSpeaker, DefaultVoicePath;
      models := catalogue;
    }

    /**
     * list_voices: no model, or one without speakers, gives []; otherwise "last" is
     * appended to the model's own speaker list, which is returned.
     */
    method ListVoices() returns (voices: seq<string>)
      modifies model
      ensures model == old(model)
      ensures model == null ==> voices == []
      ensures model != null && old(model.speakers).None? ==> voices == [] && model.speakers == old(model.speakers)
      ensures model != null && old(model.speakers).Some? ==>
                && model.speakers == Some(old(model.speakers).value + [LastVoice])
                && voices == model.speakers.value
    {
      if model == null || model.speakers.None? {
        return [];
      }
      var speakerList := model.speakers.value;
      speakerList := speakerList + [LastVoice];
      model.speakers := Some(speakerList);
      voices := speakerList;
    }

    method SetLanguage(lang: string)
      modifies this`lang
      ensures this.lang == lang
    {
      this.lang := lang;
    }

    method SetModel(modelId: string)
      modifies this`modelId
      ensures this.modelId == modelId
    {
      this.modelId := modelId;
    }

    /** load: the tts_model setting picks language and model id; `loaded` is the hub's result. */
    method Load(ttsModel: (string, string), loaded: VoiceModel)
      modifies this`lang, this`modelId, this`model
      ensures lang == ttsModel.0 && modelId == ttsModel.1 && model == loaded
    {
      SetLanguage(ttsModel.0);
      SetModel(ttsModel.1);
      model := loaded;
    }

    /**
     * tts: select the voice, reload the model, synthesise. `synthesize` gives None when
     * apply_tts raises, and then the result is (None, None).
     */
    method Tts(text: string, ttsVoice: string, ttsModel: (string, string), loaded: VoiceModel,
                      synthesize: SynthRequest -> Option<Audio>)
      returns (audio: Option<Audio>, sampleRate: Option<int>)
      modifies this`speaker, this`lang, this`modelId, this`model
      ensures speaker == SelectVoice(ttsVoice, lastVoice).speaker
      ensures lang == ttsModel.0 && modelId == ttsModel.1 && model == loaded
      ensures var request := SynthRequest(text, speaker, SampleRate, SelectVoice(ttsVoice, lastVoice).voicePath,
                                          lang, modelId);
        && audio == synthesize(request)
        && (sampleRate.Some? <==> audio.Some?)
        && (sampleRate.Some? ==> sampleRate.value == SampleRate)
    {
      var voicePath: Option<string> := None;
      if ttsVoice == LastVoice {
        voicePath := Some(lastVoice);
        speaker := RandomSpeaker;
      } else {
        speaker := ttsVoice;
      }
      Load(ttsModel, loaded);
      var result := synthesize(SynthRequest(text, speaker, SampleRate, voicePath, lang, modelId));
      if result.None? {
        return None, None;
      }
      audio, sampleRate := result, Some(SampleRate);
    }

    /**
     * save_voice: only a random voice is saved, and only then does last_voice move to
     * `voicePath`. Without a loaded model the save call raises AttributeError.
     */
    method SaveVoice(ttsVoice: string, voicePath: string) returns (outcome: Outcome)
      modifies this`lastVoice
      ensures ttsVoice != RandomSpeaker ==> outcome == Done && lastVoice == old(lastVoice)
      ensures ttsVoice == RandomSpeaker && model == null ==>
                outcome == Raised(AttributeError("save_random_voice")) && lastVoice == old(lastVoice)
      ensures ttsVoice == RandomSpeaker && model != null ==> outcome == Done && lastVoice == voicePath
    {
      if ttsVoice == RandomSpeaker {
        if model == null {
          return Raised(AttributeError("save_random_voice"));
        }
        lastVoice := voicePath;
      }
      outcome := Done;
    }
  }

  /** The module's global `tts`. */
  class TtsModule {
    var tts: Silero?

    constructor ()
      ensures tts == null
    {
      tts := null;
    }

    /** init: create the instance once, when enabled; report whether one exists. */
    method Init(ttsEnabled: bool, catalogue: Catalogue) returns (ready: bool)
      modifies this
      ensures ready <==> tts != null
      ensures old(tts) != null ==> tts == old(tts)
      ensures old(tts) == null && ttsEnabled ==> fresh(tts) && tts.models == catalogue
      ensures old(tts) == null && !ttsEnabled ==> tts == null
    {
      if ttsEnabled && tts == null {
        tts := new Silero(catalogue);
        return true;
      } else {
        if tts != null {
          return true;
        } else {
          return false;
        }
      }
    }
  }
}
