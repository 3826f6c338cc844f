/** The process-wide state of 11labs_example.py: the model and voice
    catalogs, the per-voice settings cache, and the operations that load,
    refresh and search them. The file system is the map `disk` from path to
    contents; each HTTP GET is answered by a `Reply` passed in by the caller,
    and every request issued is recorded in `requests`. */
module ElevenLabs {
  import opened PyJson
  import opened Catalog

  const MODELS_PATH := "11labs/models.json"
  const VOICES_PATH := "11labs/voices.json"
  const SETTINGS_DIR := "11labs/voice_settings"

  const MODELS_URL := "https://api.elevenlabs.io/v1/models"
  const VOICES_URL := "https://api.elevenlabs.io/v1/voices"

  /** `os.path.join(voice_settings_dir, name)` for a relative file name. */
  function InSettingsDir(name: string): string {
    SETTINGS_DIR + "/" + name
  }

  /** The cache file of one voice's settings, `<voice_id>.json`. */
  function SettingsPath(voiceId: string): string {
    InSettingsDir(voiceId + ".json")
  }

  /** The settings endpoint of one voice. */
  function SettingsUrl(voiceId: string): string {
    VOICES_URL + "/" + voiceId + "/settings"
  }

  /** How the provider answered one GET: a status code and a body, or no
      answer at all (connection or TLS failure, which `requests` raises). */
  datatype Reply = Answered(status: int, body: Document) | TransportError

  /** A request the script sent. */
  datatype Request = Get(url: string)

  /** The reply is a 200 whose body decodes. */
  predicate Succeeded(reply: Reply) {
    reply.Answered? && reply.status == 200 && reply.body.Doc?
  }

  /** `response.json()` on a 200 and None otherwise, as `get_voice_ids`,
      `save_models` and `load_voice_settings` compute it: a transport failure
      or an undecodable 200 body raises. */
  function JsonOrNone(reply: Reply): (r: Outcome<Json>)
    ensures r.Returned? <==> reply.Answered? && (reply.status == 200 ==> reply.body.Doc?)
    ensures Succeeded(reply) ==> r == Returned(reply.body.value)
    ensures reply.Answered? && reply.status != 200 ==> r == Returned(Null)
  {
    match reply
    case TransportError => Raised(ConnectionError)
    case Answered(status, body) =>
      if status != 200 then Returned(Null)
      else match body
        case Doc(j) => Returned(j)
        case Unparsable(_) => Raised(JsonDecodeError)
  }

  /** A value of `voice_settings_dict`: the raw text of a settings file, as
      the startup loop stores it, or a decoded settings document. A Python
      None is `Parsed(Null)`. */
  datatype SettingsValue = RawText(file: Document) | Parsed(value: Json)

  /** `load_models`: the decoded models.json, or the current catalog when the
      file is missing or does not decode. */
  function ModelsFrom(disk: map<string, Document>, current: Json): Json {
    if MODELS_PATH in disk && disk[MODELS_PATH].Doc? then disk[MODELS_PATH].value else current
  }

  /** `voices = voices["voices"]` after `voices = json.load(file)`: when the
      subscript raises, the whole document has already been assigned. */
  function UnwrapVoices(doc: Json): (r: Json)
    ensures doc.Obj? && "voices" in doc.fields ==> r == doc.fields["voices"]
    ensures !(doc.Obj? && "voices" in doc.fields) ==> r == doc
  {
    match doc
    case Obj(f) => if "voices" in f then f["voices"] else doc
    case _ => doc
  }

  /** `load_voices`: the voice list of voices.json, or the current catalog
      when the file is missing or does not decode. */
  function VoicesFrom(disk: map<string, Document>, current: Json): Json {
    if VOICES_PATH in disk && disk[VOICES_PATH].Doc? then UnwrapVoices(disk[VOICES_PATH].value) else current
  }

  /** The entries the startup loop adds to `voice_settings_dict`: one per file
      of the settings directory, keyed by the file name (with its ".json"),
      holding the file's raw text. */
  function StartupSettings(disk: map<string, Document>, listing: seq<string>): (m: map<string, SettingsValue>)
    requires forall name :: name in listing ==> InSettingsDir(name) in disk
  {
    map name | name in listing :: RawText(disk[InSettingsDir(name)])
  }

  /** The two cache checks of `load_voice_settings`: memory first, then the
      voice's settings file; None when neither has the voice. */
  function FromCache(settings: map<string, SettingsValue>, disk: map<string, Document>, voiceId: string)
    : Option<Outcome<SettingsValue>>
  {
    if voiceId in settings then Some(Returned(settings[voiceId]))
    else if SettingsPath(voiceId) in disk then
      Some(match disk[SettingsPath(voiceId)]
           case Doc(j) => Returned(Parsed(j))
           case Unparsable(_) => Raised(JsonDecodeError))
    else None
  }

  /** No two voices share a settings file. */
  lemma SettingsPathInjective(a: string, b: string)
    ensures SettingsPath(a) == SettingsPath(b) ==> a == b
  {
    if SettingsPath(a) == SettingsPath(b) {
      var n := |SETTINGS_DIR + "/"|;
      assert |a| == |b|;
      assert a == SettingsPath(a)[n..n + |a|];
      assert b == SettingsPath(b)[n..n + |b|];
    }
  }

  /** A settings file is never one of the two catalog files. */
  lemma SettingsPathIsNotCatalogFile(voiceId: string)
    ensures SettingsPath(voiceId) != MODELS_PATH
    ensures SettingsPath(voiceId) != VOICES_PATH
  {
  }

  /** The startup loop keys the cache by file name, so a voice whose settings
      file was on disk at startup is not found in memory by its id: the cache
      answers with the decoded file, not with the raw text stored at start. */
  lemma StartupEntriesMissInMemory(disk: map<string, Document>, listing: seq<string>, voiceId: string, j: Json)
    requires forall name :: name in listing ==> InSettingsDir(name) in disk
    requires voiceId + ".json" in listing && voiceId !in listing
    requires disk[SettingsPath(voiceId)] == Doc(j)
    ensures voiceId + ".json" in StartupSettings(disk, listing)
    ensures voiceId !in StartupSettings(disk, listing)
    ensures FromCache(StartupSettings(disk, listing), disk, voiceId) == Some(Returned(Parsed(j)))
  {
  }

  /** A cache answer from memory is exactly the stored value; a miss in
      memory falls back to the file; a miss in both asks for a fetch. */
  lemma CachePrecedence(settings: map<string, SettingsValue>, disk: map<string, Document>, voiceId: string)
    ensures voiceId in settings ==> FromCache(settings, disk, voiceId) == Some(Returned(settings[voiceId]))
    ensures voiceId !in settings && SettingsPath(voiceId) in disk && disk[SettingsPath(voiceId)].Doc? ==>
              FromCache(settings, disk, voiceId) == Some(Returned(Parsed(disk[SettingsPath(voiceId)].value)))
    ensures FromCache(settings, disk, voiceId) == None <==> voiceId !in settings && SettingsPath(voiceId) !in disk
  {
  }

  /** Every decoded settings value held in memory is also the content of
      that voice's settings file. */
  predicate Coherent(settings: map<string, SettingsValue>, disk: map<string, Document>) {
    forall id :: id in settings && settings[id].Parsed? ==>
      SettingsPath(id) in disk && disk[SettingsPath(id)] == Doc(settings[id].value)
  }

  /** For a coherent cache, checking memory before the file cannot be
      observed for a fetched entry: without its memory entry the cache gives
      the same answer from disk. */
  lemma FetchedEntryAnswersFromDisk(settings: map<string, SettingsValue>, disk: map<string, Document>, voiceId: string)
    requires Coherent(settings, disk)
    requires voiceId in settings && settings[voiceId].Parsed?
    ensures FromCache(settings - {voiceId}, disk, voiceId) == FromCache(settings, disk, voiceId)
  {
  }

  /** The script's global state. */
  class App {
    var models: Json
    var voices: Json
    var voiceSettings: map<string, SettingsValue>
    var disk: map<string, Document>
    var requests: seq<Request>

    /** Every decoded settings value held in memory is also the content of
        that voice's settings file: a fetch writes both. */
    ghost predicate Valid()
      reads this`voiceSettings, this`disk
    {
      Coherent(voiceSettings, disk)
    }

    /** Module start-up: empty catalogs, the voices file read (lines 42-47),
        `load_models()`, `load_voices()`, then every file of the settings
        directory (`listing`, the result of `os.listdir`) read into the cache. */
    constructor (files: map<string, Document>, listing: seq<string>)
      requires forall name :: name in listing ==> InSettingsDir(name) in files
      ensures Valid()
      ensures disk == files && requests == []
      ensures models == ModelsFrom(files, Arr([]))
      ensures voices == VoicesFrom(files, Arr([]))
      ensures voiceSettings == StartupSettings(files, listing)
    {
      models, voices, voiceSettings, disk, requests := Arr([]), Arr([]), map[], files, [];
      new;
      LoadVoices();
      LoadModels();
      LoadVoices();
      LoadSettingsDirectory(listing);
      assert map[] + StartupSettings(files, listing) == StartupSettings(files, listing);
    }

    /** The start-up loop over the settings directory. */
    method LoadSettingsDirectory(listing: seq<string>)
      requires Valid()
      requires forall name :: name in listing ==> InSettingsDir(name) in disk
      modifies this`voiceSettings
      ensures Valid()
      ensures voiceSettings == old(voiceSettings) + StartupSettings(disk, listing)
    {
      for i := 0 to |listing|
        invariant Valid()
        invariant voiceSettings == old(voiceSettings) + StartupSettings(disk, listing[..i])
      {
        var name := listing[i];
        voiceSettings := voiceSettings[name := RawText(disk[InSettingsDir(name)])];
        assert listing[..i + 1] == listing[..i] + [name];
      }
      assert listing[..|listing|] == listing;
    }

    /** `load_models()`. */
    method LoadModels()
      modifies this`models
      ensures models == ModelsFrom(disk, old(models))
    {
      if MODELS_PATH in disk && disk[MODELS_PATH].Doc? {
        models := disk[MODELS_PATH].value;
      }
    }

    /** `load_voices()`. */
    method LoadVoices()
      modifies this`voices
      ensures voices == VoicesFrom(disk, old(voices))
    {
      if VOICES_PATH in disk && disk[VOICES_PATH].Doc? {
        voices := UnwrapVoices(disk[VOICES_PATH].value);
      }
    }

    /** `save_models()`: fetch the model list; only a decodable 200 is written
        to models.json and reloaded. Anything else leaves file and catalog alone. */
    method SaveModels(reply: Reply) returns (r: Outcome<Json>)
      requires Valid()
      modifies this`models, this`disk, this`requests
      ensures Valid()
      ensures requests == old(requests) + [Get(MODELS_URL)]
      ensures r == JsonOrNone(reply)
      ensures Succeeded(reply) ==> disk == old(disk)[MODELS_PATH := reply.body] && models == reply.body.value
      ensures !Succeeded(reply) ==> disk == old(disk) && models == old(models)
    {
      requests := requests + [Get(MODELS_URL)];
      if reply.TransportError? {
        return Raised(ConnectionError);
      }
      if reply.status != 200 {
        return Returned(Null);
      }
      if reply.body.Unparsable? {
        return Raised(JsonDecodeError);
      }
      forall id ensures SettingsPath(id) != MODELS_PATH {
        SettingsPathIsNotCatalogFile(id);
      }
      disk := disk[MODELS_PATH := reply.body];
      LoadModels();
      return Returned(reply.body.value);
    }

    /** `save_voices()`: whatever `get_voice_ids()` returned -- None after a
        non-200 reply -- is written to voices.json and reloaded. */
    method SaveVoices(reply: Reply) returns (r: Outcome<Json>)
      requires Valid()
      modifies this`voices, this`disk, this`requests
      ensures Valid()
      ensures requests == old(requests) + [Get(VOICES_URL)]
      ensures r == JsonOrNone(reply)
      ensures r.Returned? ==> disk == old(disk)[VOICES_PATH := Doc(r.value)] && voices == UnwrapVoices(r.value)
      ensures r.Raised? ==> disk == old(disk) && voices == old(voices)
      ensures reply.Answered? && reply.status != 200 ==> disk[VOICES_PATH] == Doc(Null) && voices == Null
    {
      requests := requests + [Get(VOICES_URL)];
      var voiceIds := JsonOrNone(reply);
      if voiceIds.Raised? {
        return voiceIds;
      }
      forall id ensures SettingsPath(id) != VOICES_PATH {
        SettingsPathIsNotCatalogFile(id);
      }
      disk := disk[VOICES_PATH := Doc(voiceIds.value)];
      LoadVoices();
      return voiceIds;
    }

    /** `model_exists(model_id, returnit)`; the id is the dropdown's value,
        None when nothing is selected. */
    method ModelExists(modelId: Json, returnit: bool) returns (r: Outcome<Json>)
      ensures r == Lookup(models, "model_id", modelId, returnit)
    {
      r := FindEntry(models, "model_id", modelId, returnit);
    }

    /** `voice_exists(voice_id, returnit)`. */
    method VoiceExists(voiceId: Json, returnit: bool) returns (r: Outcome<Json>)
      ensures r == Lookup(voices, "voice_id", voiceId, returnit)
    {
      r := FindEntry(voices, "voice_id", voiceId, returnit);
    }

    /** `load_voice_settings(voice_id, use_cache)`. With `useCache`, a value in
        memory or in the voice's settings file is returned without a request.
        Otherwise one GET is sent; a decodable 200 is written to the file and
        stored under `voiceId`, changing no other key; a non-200 returns None
        and changes nothing. */
    method LoadVoiceSettings(voiceId: string, useCache: bool, reply: Reply) returns (r: Outcome<SettingsValue>)
      requires Valid()
      modifies this`voiceSettings, this`disk, this`requests
      ensures Valid()
      ensures useCache && FromCache(old(voiceSettings), old(disk), voiceId).Some? ==>
                && r == FromCache(old(voiceSettings), old(disk), voiceId).value
                && voiceSettings == old(voiceSettings) && disk == old(disk) && requests == old(requests)
      ensures !useCache || FromCache(old(voiceSettings), old(disk), voiceId) == None ==>
                && requests == old(requests) + [Get(SettingsUrl(voiceId))]
                && (Succeeded(reply) ==>
                      && r == Returned(Parsed(reply.body.value))
                      && disk == old(disk)[SettingsPath(voiceId) := reply.body]
                      && voiceSettings == old(voiceSettings)[voiceId := Parsed(reply.body.value)])
                && (!Succeeded(reply) ==>
                      && r == (if JsonOrNone(reply).Raised? then Raised(JsonOrNone(reply).error) else Returned(Parsed(Null)))
                      && disk == old(disk) && voiceSettings == old(voiceSettings))
    {
      var path := SettingsPath(voiceId);
      if useCache {
        if voiceId in voiceSettings {
          return Returned(voiceSettings[voiceId]);
        }
        if path in disk {
          match disk[path] {
            case Doc(j) => return Returned(Parsed(j));
            case Unparsable(_) => return Raised(JsonDecodeError);
          }
        }
      }
      requests := requests + [Get(SettingsUrl(voiceId))];
      var fetched := JsonOrNone(reply);
      if fetched.Raised? {
        return Raised(fetched.error);
      }
      if reply.status != 200 {
        return Returned(Parsed(Null));
      }
      forall id | id != voiceId ensures SettingsPath(id) != path {
        SettingsPathInjective(id, voiceId);
      }
      disk := disk[path := reply.body];
      voiceSettings := voiceSettings[voiceId := Parsed(fetched.value)];
      return Returned(Parsed(fetched.value));
    }

    /** `get_models_drop_down(new_models)`: a non-empty argument replaces the
        catalog (before the loop, so it stays replaced if the loop raises);
        the choices are one `(name, model_id)` pair per model. */
    method GetModelsDropDown(newModels: seq<Json>) returns (r: Outcome<seq<Choice>>)
      modifies this`models
      ensures models == if newModels != [] then Arr(newModels) else old(models)
      ensures r == Choices(models, "model_id")
    {
      if |newModels| > 0 {
        models := Arr(newModels);
      }
      r := BuildChoices(models, "model_id");
    }

    /** `get_voices_drop_down(new_voices)`, as for models with `voice_id`. */
    method GetVoicesDropDown(newVoices: seq<Json>) returns (r: Outcome<seq<Choice>>)
      modifies this`voices
      ensures voices == if newVoices != [] then Arr(newVoices) else old(voices)
      ensures r == Choices(voices, "voice_id")
    {
      if |newVoices| > 0 {
        voices := Arr(newVoices);
      }
      r := BuildChoices(voices, "voice_id");
    }
  }

  const NOT_SELECTED := "Model ID or Voice ID not selected."

  /** The guard at the top of `text_to_speech`: with no model or no voice
      selected (None or an empty string), it returns `(None, NOT_SELECTED)`
      before any request is built or sent; None means the request goes out.
      The last clause restates the first for the usual string selections. */
  function SynthesisGuard(modelId: Json, voiceId: Json): (r: Option<(Json, string)>)
    ensures r.Some? <==> !Truthy(modelId) || !Truthy(voiceId)
    ensures r.Some? ==> r.value == (Null, NOT_SELECTED)
    ensures modelId.Str? && voiceId.Str? ==> (r == None <==> modelId.s != "" && voiceId.s != "")
  {
    if !Truthy(modelId) || !Truthy(voiceId) then Some((Null, NOT_SELECTED)) else None
  }
}
