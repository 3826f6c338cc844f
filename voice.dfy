/** The voice record: `VoiceLabels`, `Voice` and `get_voice_info_and_preview`
    in 11labs_example.py. Both classes only set their fields once, in their
    constructors, so they are values here, and a constructor that raises is a
    function returning an `Outcome`. */
module VoiceRecord {
  import opened PyJson
  import opened Catalog

  /** The labels of a voice; each field is None when the label is absent.
      The use case is read from the key "use case" (with a space). */
  datatype VoiceLabels = VoiceLabels(accent: Json, description: Json, age: Json, gender: Json, useCase: Json)

  const LABELS_NOT_DICT := "voice_labels must be a dictionary"

  /** The value of `key` in `fields`, or None when the key is absent. */
  predicate IsFieldOrNone(v: Json, fields: map<string, Json>, key: string) {
    if key in fields then v == fields[key] else v == Null
  }

  /** `VoiceLabels(voice_labels)`: raises ValueError unless given a dict. */
  function NewVoiceLabels(labels: Json): (r: Outcome<VoiceLabels>)
    ensures r.Raised? <==> !labels.Obj?
    ensures r.Raised? ==> r.error == ValueError(LABELS_NOT_DICT)
    ensures r.Returned? ==>
              && IsFieldOrNone(r.value.accent, labels.fields, "accent")
              && IsFieldOrNone(r.value.description, labels.fields, "description")
              && IsFieldOrNone(r.value.age, labels.fields, "age")
              && IsFieldOrNone(r.value.gender, labels.fields, "gender")
              && IsFieldOrNone(r.value.useCase, labels.fields, "use case")
  {
    match labels
    case Obj(f) =>
      Returned(VoiceLabels(GetOr(f, "accent", Null), GetOr(f, "description", Null), GetOr(f, "age", Null),
                           GetOr(f, "gender", Null), GetOr(f, "use case", Null)))
    case _ => Raised(ValueError(LABELS_NOT_DICT))
  }

  /** A voice of the catalog. `entry` is the catalog entry it was built from;
      the accent, description, age, gender and use case the source copies
      onto the voice are those of `labels`. */
  datatype Voice = Voice(
    voiceId: string,
    entry: map<string, Json>,
    name: Json,
    previewUrl: Json,
    labels: VoiceLabels,
    fineTuning: Json,
    fineTuningState: Json,
    fineTuningLanguage: Json,
    highQualityBaseModelIds: Json)

  function NoSuchVoice(voiceId: string): string {
    "Voice with ID " + voiceId + " doesn't exist"
  }

  /** `fine_tuning.get("fine_tuning_state", None) if fine_tuning else None`:
      a truthy value that is not a dict has no `get` (AttributeError). */
  function FineTuningState(fineTuning: Json): (r: Outcome<Json>)
    ensures r.Raised? <==> Truthy(fineTuning) && !fineTuning.Obj?
    ensures r.Raised? ==> r.error == AttributeError
    ensures fineTuning.Obj? && fineTuning.fields != map[] ==>
              r == Returned(GetOr(fineTuning.fields, "fine_tuning_state", Null))
    ensures !Truthy(fineTuning) ==> r == Returned(Null)
  {
    if !Truthy(fineTuning) then Returned(Null)
    else
      match fineTuning
      case Obj(f) => Returned(GetOr(f, "fine_tuning_state", Null))
      case _ => Raised(AttributeError)
  }

  /** `Voice(voice_id)` over the voice catalog `voices`. The fine-tuning
      language is read from the "fine_tuning_state" key, as the source does. */
  function NewVoice(voices: Json, voiceId: string): (r: Outcome<Voice>)
    ensures Lookup(voices, "voice_id", Str(voiceId), true) == Returned(Bool(false)) ==>
              r == Raised(ValueError(NoSuchVoice(voiceId)))
    ensures r.Returned? ==>
              && r.value.voiceId == voiceId
              && HasId(Obj(r.value.entry), "voice_id", Str(voiceId))
              && Lookup(voices, "voice_id", Str(voiceId), true) == Returned(Obj(r.value.entry))
              && r.value.fineTuningLanguage == r.value.fineTuningState
              && IsFieldOrNone(r.value.name, r.value.entry, "name")
              && IsFieldOrNone(r.value.previewUrl, r.value.entry, "preview_url")
              && r.value.highQualityBaseModelIds ==
                   (if "high_quality_base_model_ids" in r.value.entry
                    then r.value.entry["high_quality_base_model_ids"] else Arr([]))
              && NewVoiceLabels(GetOr(r.value.entry, "labels", Null)) == Returned(r.value.labels)
              && r.value.fineTuning == GetOr(r.value.entry, "fine_tuning", Null)
              && r.value.fineTuningState ==
                   (if r.value.fineTuning.Obj? && r.value.fineTuning.fields != map[]
                    then GetOr(r.value.fineTuning.fields, "fine_tuning_state", Null) else Null)
    ensures forall e :: Lookup(voices, "voice_id", Str(voiceId), true) == Returned(Obj(e)) ==>
              && (!GetOr(e, "labels", Null).Obj? ==> r == Raised(ValueError(LABELS_NOT_DICT)))
              && (GetOr(e, "labels", Null).Obj? && FineTuningState(GetOr(e, "fine_tuning", Null)).Raised? ==>
                    r == Raised(AttributeError))
              && (GetOr(e, "labels", Null).Obj? && FineTuningState(GetOr(e, "fine_tuning", Null)).Returned? ==>
                    r.Returned? && r.value.entry == e)
    ensures Lookup(voices, "voice_id", Str(voiceId), true).Raised? ==>
              r == Raised(Lookup(voices, "voice_id", Str(voiceId), true).error)
  {
    LookupAnswers(voices, "voice_id", Str(voiceId), true);
    match Lookup(voices, "voice_id", Str(voiceId), true)
    case Raised(e) => Raised(e)
    case Returned(found) =>
      // `if self.voice:` -- a lookup returns either a matching dict or False
      match found
      case Obj(v) =>
        (match NewVoiceLabels(GetOr(v, "labels", Null))
         case Raised(e) => Raised(e)
         case Returned(labels) =>
           var fineTuning := GetOr(v, "fine_tuning", Null);
           match FineTuningState(fineTuning)
           case Raised(e) => Raised(e)
           case Returned(state) =>
             Returned(Voice(voiceId, v, GetOr(v, "name", Null), GetOr(v, "preview_url", Null), labels,
                            fineTuning, state, state, GetOr(v, "high_quality_base_model_ids", Arr([])))))
      case _ => Raised(ValueError(NoSuchVoice(voiceId)))
  }

  /** The best-fit model: `ids[0] if len(ids) > 0 else None`. `len` of None, a
      boolean or a number raises TypeError; the first element of a string is
      its first character; a non-empty dict has no key 0. */
  function BestFit(ids: Json): (r: Outcome<Json>)
    ensures ids.Arr? ==> r == Returned(if ids.items != [] then ids.items[0] else Null)
    ensures r.Returned? && r.value != Null ==> Truthy(ids)
  {
    match ids
    case Arr(items) => Returned(if items != [] then items[0] else Null)
    case Str(s) => Returned(if s != "" then Str([s[0]]) else Null)
    case Obj(f) => if f != map[] then Raised(KeyError(Num(0.0))) else Returned(Null)
    case _ => Raised(TypeError)
  }

  /** The first output of `get_voice_info_and_preview`: the information text
      built from a voice, or the message of the ValueError that was caught. */
  datatype Info = Details(voice: Voice) | Message(text: string)

  /** The three outputs of `get_voice_info_and_preview`. */
  datatype VoiceInfo = VoiceInfo(info: Info, preview: Json, bestFit: Json)

  /** `get_voice_info_and_preview(voice_id)`: a ValueError becomes its message
      with an empty preview and no model; other exceptions pass through. */
  function VoiceInfoAndPreview(voices: Json, voiceId: string): (r: Outcome<VoiceInfo>)
    ensures NewVoice(voices, voiceId).Raised? && NewVoice(voices, voiceId).error.ValueError? ==>
              r == Returned(VoiceInfo(Message(NewVoice(voices, voiceId).error.message), Str(""), Null))
    ensures NewVoice(voices, voiceId).Raised? && !NewVoice(voices, voiceId).error.ValueError? ==>
              r == Raised(NewVoice(voices, voiceId).error)
    ensures NewVoice(voices, voiceId).Returned? ==>
              var voice := NewVoice(voices, voiceId).value;
              match BestFit(voice.highQualityBaseModelIds)
              case Returned(best) => r == Returned(VoiceInfo(Details(voice), voice.previewUrl, best))
              case Raised(e) => r == Raised(e)
    ensures r.Returned? && r.value.info.Details? ==>
              && NewVoice(voices, voiceId) == Returned(r.value.info.voice)
              && r.value.preview == r.value.info.voice.previewUrl
              && BestFit(r.value.info.voice.highQualityBaseModelIds) == Returned(r.value.bestFit)
  {
    match NewVoice(voices, voiceId)
    case Raised(e) =>
      if e.ValueError? then Returned(VoiceInfo(Message(e.message), Str(""), Null)) else Raised(e)
    case Returned(voice) =>
      match BestFit(voice.highQualityBaseModelIds)
      case Raised(e) => Raised(e)
      case Returned(best) => Returned(VoiceInfo(Details(voice), voice.previewUrl, best))
  }

  /** A voice id that no entry of a list catalog carries is reported as
      missing, with an empty preview and no best-fit model. */
  lemma UnknownVoiceInfo(entries: seq<Json>, voiceId: string)
    requires forall j :: 0 <= j < |entries| ==> HasOtherId(entries[j], "voice_id", Str(voiceId))
    ensures VoiceInfoAndPreview(Arr(entries), voiceId) ==
              Returned(VoiceInfo(Message(NoSuchVoice(voiceId)), Str(""), Null))
  {
    FindNoMatch(entries, "voice_id", Str(voiceId));
  }

  /** A catalog entry without a labels dict cannot be shown: the ValueError
      of `VoiceLabels` becomes the message. */
  lemma MissingLabelsInfo(entries: seq<Json>, voiceId: string, k: nat)
    requires k < |entries| && HasId(entries[k], "voice_id", Str(voiceId))
    requires forall j :: 0 <= j < k ==> HasOtherId(entries[j], "voice_id", Str(voiceId))
    requires !GetOr(entries[k].fields, "labels", Null).Obj?
    ensures VoiceInfoAndPreview(Arr(entries), voiceId) ==
              Returned(VoiceInfo(Message(LABELS_NOT_DICT), Str(""), Null))
  {
    FindFirstMatch(entries, "voice_id", Str(voiceId), k);
  }

  /** For the first entry carrying the id, with a labels dict, no fine-tuning
      data or a dict of it, and a list of high-quality base models, the preview
      is the entry's preview URL and the best fit is the first listed model,
      or None when the list is empty. */
  lemma ListedVoiceInfo(entries: seq<Json>, voiceId: string, k: nat, ids: seq<Json>)
    requires k < |entries| && HasId(entries[k], "voice_id", Str(voiceId))
    requires forall j :: 0 <= j < k ==> HasOtherId(entries[j], "voice_id", Str(voiceId))
    requires "labels" in entries[k].fields && entries[k].fields["labels"].Obj?
    requires "fine_tuning" !in entries[k].fields || entries[k].fields["fine_tuning"].Obj?
    requires "high_quality_base_model_ids" in entries[k].fields
    requires entries[k].fields["high_quality_base_model_ids"] == Arr(ids)
    ensures VoiceInfoAndPreview(Arr(entries), voiceId).Returned?
    ensures VoiceInfoAndPreview(Arr(entries), voiceId).value.info.Details?
    ensures VoiceInfoAndPreview(Arr(entries), voiceId).value.preview == GetOr(entries[k].fields, "preview_url", Null)
    ensures VoiceInfoAndPreview(Arr(entries), voiceId).value.bestFit == if ids != [] then ids[0] else Null
  {
    FindFirstMatch(entries, "voice_id", Str(voiceId), k);
  }
}
