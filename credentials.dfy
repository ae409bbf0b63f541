/** The credential service: the persistent key-value store, the process environment, and
    the precedence and migration rules between them. */
module Credentials {
  import opened Wrappers
  import opened JsText

  type Store = map<string, string>
  type Env = map<string, string>

  const GoogleApiKey := "google_api_key"
  const VoiceName := "gemini_voice_name"
  const Provider := "llm_provider"
  const OllamaBaseUrl := "ollama_base_url"
  const OllamaModel := "ollama_model"

  const EnvGoogle := "GOOGLE_API_KEY"
  const EnvGemini := "GEMINI_API_KEY"
  const EnvVoice := "GEMINI_VOICE_NAME"
  const EnvProvider := "LLM_PROVIDER"
  const EnvBaseUrl := "OLLAMA_BASE_URL"
  const EnvModel := "OLLAMA_MODEL"

  /** The environment variables `loadCredentials` may write. */
  const LoadedNames: set<string> := {EnvGoogle, EnvGemini, EnvVoice, EnvProvider, EnvBaseUrl, EnvModel}

  /** The store keys `saveCredentials` may write. */
  const SavedKeys: set<string> := {GoogleApiKey, VoiceName, Provider, OllamaBaseUrl, OllamaModel}

  /** The store keys `clearCredentials` deletes. */
  const ClearedKeys: set<string> :=
    {GoogleApiKey, VoiceName, Provider, OllamaBaseUrl, OllamaModel, "eleven_api_key", "eleven_voice_id"}

  /** The environment variables involved are pairwise different. */
  lemma EnvNamesDistinct()
    ensures EnvGoogle != EnvGemini && EnvGoogle != EnvVoice && EnvGoogle != EnvProvider
    ensures EnvGoogle != EnvBaseUrl && EnvGoogle != EnvModel
    ensures EnvGemini != EnvVoice && EnvGemini != EnvProvider && EnvGemini != EnvBaseUrl && EnvGemini != EnvModel
    ensures EnvVoice != EnvProvider && EnvVoice != EnvBaseUrl && EnvVoice != EnvModel
    ensures EnvProvider != EnvBaseUrl && EnvProvider != EnvModel && EnvBaseUrl != EnvModel
  {
    assert EnvGoogle[1] == 'O' && EnvGemini[1] == 'E';
    assert EnvProvider[0] == 'L' && EnvModel[0] == 'O';
  }

  /** The store keys involved are pairwise different. */
  lemma StoreKeysDistinct()
    ensures GoogleApiKey != VoiceName && GoogleApiKey != Provider && GoogleApiKey != OllamaBaseUrl
    ensures GoogleApiKey != OllamaModel && VoiceName != Provider && VoiceName != OllamaBaseUrl
    ensures VoiceName != OllamaModel && Provider != OllamaBaseUrl && Provider != OllamaModel
    ensures OllamaBaseUrl != OllamaModel
  {
    assert GoogleApiKey[0] == 'g' && VoiceName[0] == 'g' && GoogleApiKey[1] == 'o' && VoiceName[1] == 'e';
    assert Provider[0] == 'l' && OllamaBaseUrl[0] == 'o' && OllamaModel[7] == 'm' && OllamaBaseUrl[7] == 'b';
  }

  /** `store.get(k)` or `process.env[k]`. */
  function Get(m: map<string, string>, k: string): Option<string> {
    if k in m then Some(m[k]) else None
  }

  /** `GOOGLE_API_KEY || GEMINI_API_KEY`. */
  function EnvKey(env: Env): Option<string> {
    Or(Get(env, EnvGoogle), Get(env, EnvGemini))
  }

  /** The Gemini key decision: the key to use, whether it is the environment's default, and
      whether the stored copy is a stale migration to be dropped. */
  datatype GeminiChoice = GeminiChoice(key: Option<string>, usingDefault: bool, dropStored: bool)

  function ChooseGeminiKey(stored: Option<string>, fromEnv: Option<string>): (c: GeminiChoice)
    ensures Truthy(c.key) <==> Truthy(stored) || Truthy(fromEnv)
    ensures c.usingDefault <==> Truthy(fromEnv) && (stored == fromEnv || !Truthy(stored))
    ensures c.usingDefault ==> c.key == fromEnv
    ensures !c.usingDefault ==> c.key == stored
    ensures c.dropStored <==> Truthy(stored) && stored == fromEnv
  {
    if Truthy(stored) && stored == fromEnv then GeminiChoice(fromEnv, true, true)
    else if !Truthy(stored) && Truthy(fromEnv) then GeminiChoice(fromEnv, true, false)
    else GeminiChoice(stored, false, false)
  }

  /** `stored || fromEnv || fallback` for a non-empty fallback. */
  function Setting(stored: Option<string>, fromEnv: Option<string>, fallback: string): (v: string)
    requires fallback != ""
    ensures v != ""
    ensures Truthy(stored) ==> v == stored.value
    ensures !Truthy(stored) && Truthy(fromEnv) ==> v == fromEnv.value
    ensures !Truthy(stored) && !Truthy(fromEnv) ==> v == fallback
  {
    OrElse(Or(stored, fromEnv), fallback)
  }

  /** What `loadCredentials` returns. */
  datatype Loaded = Loaded(
    geminiKey: Option<string>,
    usingDefaultGemini: bool,
    geminiVoice: string,
    llmProvider: string,
    ollamaBaseUrl: string,
    ollamaModel: string,
    isComplete: bool)

  /** The fields given to `saveCredentials`, each a string or absent. */
  datatype SaveRequest = SaveRequest(
    geminiKey: Option<string>,
    geminiVoice: Option<string>,
    llmProvider: Option<string>,
    ollamaBaseUrl: Option<string>,
    ollamaModel: Option<string>)

  /** `if (v) m[k] = v`. */
  function PutIfTruthy(m: map<string, string>, k: string, v: Option<string>): (r: map<string, string>)
    ensures forall j :: Get(r, j) == if j == k && Truthy(v) then v else Get(m, j)
  {
    if Truthy(v) then m[k := v.value] else m
  }

  /** The store after `saveCredentials`: a truthy field is written, an empty key is
      deleted, and nothing else changes. */
  function SavedStore(store: Store, req: SaveRequest): (m: Store)
    ensures forall k :: k !in SavedKeys ==> Get(m, k) == Get(store, k)
    ensures Truthy(req.geminiKey) ==> Get(m, GoogleApiKey) == req.geminiKey
    ensures req.geminiKey == Some("") ==> GoogleApiKey !in m
    ensures req.geminiKey == None ==> Get(m, GoogleApiKey) == Get(store, GoogleApiKey)
    ensures Get(m, VoiceName) == (if Truthy(req.geminiVoice) then req.geminiVoice else Get(store, VoiceName))
    ensures Get(m, Provider) == (if Truthy(req.llmProvider) then req.llmProvider else Get(store, Provider))
    ensures Get(m, OllamaBaseUrl) == (if Truthy(req.ollamaBaseUrl) then req.ollamaBaseUrl else Get(store, OllamaBaseUrl))
    ensures Get(m, OllamaModel) == (if Truthy(req.ollamaModel) then req.ollamaModel else Get(store, OllamaModel))
  {
    StoreKeysDistinct();
    var withKey :=
      if Truthy(req.geminiKey) then store[GoogleApiKey := req.geminiKey.value]
      else if req.geminiKey == Some("") then store - {GoogleApiKey}
      else store;
    var m1 := PutIfTruthy(withKey, VoiceName, req.geminiVoice);
    var m2 := PutIfTruthy(m1, Provider, req.llmProvider);
    var m3 := PutIfTruthy(m2, OllamaBaseUrl, req.ollamaBaseUrl);
    PutIfTruthy(m3, OllamaModel, req.ollamaModel)
  }

  /** The environment after `saveCredentials`: a truthy key goes to both key variables,
      every other truthy field to its variable, and nothing else changes. */
  function SavedEnv(env: Env, req: SaveRequest): (e: Env)
    ensures forall k :: k !in LoadedNames ==> Get(e, k) == Get(env, k)
    ensures Get(e, EnvGoogle) == (if Truthy(req.geminiKey) then req.geminiKey else Get(env, EnvGoogle))
    ensures Get(e, EnvGemini) == (if Truthy(req.geminiKey) then req.geminiKey else Get(env, EnvGemini))
    ensures Get(e, EnvVoice) == (if Truthy(req.geminiVoice) then req.geminiVoice else Get(env, EnvVoice))
    ensures Get(e, EnvProvider) == (if Truthy(req.llmProvider) then req.llmProvider else Get(env, EnvProvider))
    ensures Get(e, EnvBaseUrl) == (if Truthy(req.ollamaBaseUrl) then req.ollamaBaseUrl else Get(env, EnvBaseUrl))
    ensures Get(e, EnvModel) == (if Truthy(req.ollamaModel) then req.ollamaModel else Get(env, EnvModel))
  {
    EnvNamesDistinct();
    var e1 := if Truthy(req.geminiKey) then env[EnvGoogle := req.geminiKey.value][EnvGemini := req.geminiKey.value] else env;
    var e2 := PutIfTruthy(e1, EnvVoice, req.geminiVoice);
    var e3 := PutIfTruthy(e2, EnvProvider, req.llmProvider);
    var e4 := PutIfTruthy(e3, EnvBaseUrl, req.ollamaBaseUrl);
    PutIfTruthy(e4, EnvModel, req.ollamaModel)
  }

  /** The setup is complete for Ollama whenever the URL and model are set, and otherwise
      exactly when there is a Gemini key. */
  function IsComplete(provider: string, baseUrl: string, model: string, key: Option<string>): bool {
    if provider == "ollama" then baseUrl != "" && model != "" else Truthy(key)
  }

  /** The URL and model of a load always fall back to non-empty defaults, so selecting the
      Ollama provider always completes the setup. */
  lemma OllamaAlwaysComplete(store: Store, env: Env, key: Option<string>)
    ensures IsComplete("ollama",
      Setting(Get(store, OllamaBaseUrl), Get(env, EnvBaseUrl), "http://127.0.0.1:11434"),
      Setting(Get(store, OllamaModel), Get(env, EnvModel), "llama3.1:8b"), key)
  {
  }

  /** The environment after `loadCredentials`: a resulting key goes to both key variables,
      the voice, provider, URL and model are always written, and nothing else changes. */
  function LoadedEnv(env: Env, r: Loaded): (e: Env)
    ensures Get(e, EnvGoogle) == (if Truthy(r.geminiKey) then r.geminiKey else Get(env, EnvGoogle))
    ensures Get(e, EnvGemini) == (if Truthy(r.geminiKey) then r.geminiKey else Get(env, EnvGemini))
    ensures Get(e, EnvVoice) == Some(r.geminiVoice)
    ensures Get(e, EnvProvider) == Some(r.llmProvider)
    ensures Get(e, EnvBaseUrl) == Some(r.ollamaBaseUrl)
    ensures Get(e, EnvModel) == Some(r.ollamaModel)
    ensures forall k :: k !in LoadedNames ==> Get(e, k) == Get(env, k)
  {
    EnvNamesDistinct();
    var withKey :=
      if Truthy(r.geminiKey) then env[EnvGoogle := r.geminiKey.value][EnvGemini := r.geminiKey.value] else env;
    withKey[EnvVoice := r.geminiVoice][EnvProvider := r.llmProvider][EnvBaseUrl := r.ollamaBaseUrl][EnvModel := r.ollamaModel]
  }

  /** The service around the encrypted store; `env` is the process environment. */
  class CredentialService {
    var store: Store
    var env: Env

    constructor (store: Store, env: Env)
      ensures this.store == store && this.env == env
    {
      this.store := store;
      this.env := env;
    }

    /** The Gemini part of `loadCredentials`: the key decision, the migration delete and
        the injection of the key into both environment variables. */
    method LoadGeminiKey() returns (geminiKey: Option<string>, usingDefaultGemini: bool)
      modifies this
      ensures var c := ChooseGeminiKey(Get(old(store), GoogleApiKey), EnvKey(old(env)));
        && geminiKey == c.key
        && usingDefaultGemini == c.usingDefault
        && store == (if c.dropStored then old(store) - {GoogleApiKey} else old(store))
      ensures env == if Truthy(geminiKey) then old(env)[EnvGoogle := geminiKey.value][EnvGemini := geminiKey.value] else old(env)
    {
      geminiKey := Get(store, GoogleApiKey);
      var envGemini := Or(Get(env, EnvGoogle), Get(env, EnvGemini));
      // the three-way precedence decision on the stored and environment keys
      var choice := ChooseGeminiKey(geminiKey, envGemini);
      if choice.dropStored {
        store := store - {GoogleApiKey};
      }
      geminiKey := choice.key;
      usingDefaultGemini := choice.usingDefault;
      if Truthy(geminiKey) {
        env := env[EnvGoogle := geminiKey.value];
        env := env[EnvGemini := geminiKey.value];
      }
    }

    /** `loadCredentials`. */
    method LoadCredentials() returns (r: Loaded)
      modifies this
      ensures var c := ChooseGeminiKey(Get(old(store), GoogleApiKey), EnvKey(old(env)));
        && r.geminiKey == c.key
        && r.usingDefaultGemini == c.usingDefault
        && store == (if c.dropStored then old(store) - {GoogleApiKey} else old(store))
      ensures r.geminiVoice == Setting(Get(old(store), VoiceName), None, "Puck")
      ensures r.llmProvider == Setting(Get(old(store), Provider), Get(old(env), EnvProvider), "gemini")
      ensures r.ollamaBaseUrl == Setting(Get(old(store), OllamaBaseUrl), Get(old(env), EnvBaseUrl), "http://127.0.0.1:11434")
      ensures r.ollamaModel == Setting(Get(old(store), OllamaModel), Get(old(env), EnvModel), "llama3.1:8b")
      ensures r.isComplete == IsComplete(r.llmProvider, r.ollamaBaseUrl, r.ollamaModel, r.geminiKey)
      ensures r.isComplete == (r.llmProvider == "ollama" || Truthy(r.geminiKey))
      ensures env == LoadedEnv(old(env), r)
    {
      var geminiKey, usingDefaultGemini := LoadGeminiKey();
      EnvNamesDistinct();
      StoreKeysDistinct();
      assert Get(store, VoiceName) == Get(old(store), VoiceName) && Get(store, Provider) == Get(old(store), Provider);
      assert Get(store, OllamaBaseUrl) == Get(old(store), OllamaBaseUrl) && Get(store, OllamaModel) == Get(old(store), OllamaModel);
      assert Get(env, EnvProvider) == Get(old(env), EnvProvider) && Get(env, EnvBaseUrl) == Get(old(env), EnvBaseUrl);
      assert Get(env, EnvModel) == Get(old(env), EnvModel);
      var geminiVoice := Setting(Get(store, VoiceName), None, "Puck");
      // the voice written first is not among the variables read next
      var llmProvider := Setting(Get(store, Provider), Get(env, EnvProvider), "gemini");
      var ollamaBaseUrl := Setting(Get(store, OllamaBaseUrl), Get(env, EnvBaseUrl), "http://127.0.0.1:11434");
      var ollamaModel := Setting(Get(store, OllamaModel), Get(env, EnvModel), "llama3.1:8b");
      env := env[EnvVoice := geminiVoice][EnvProvider := llmProvider][EnvBaseUrl := ollamaBaseUrl][EnvModel := ollamaModel];
      var isComplete := IsComplete(llmProvider, ollamaBaseUrl, ollamaModel, geminiKey);
      r := Loaded(geminiKey, usingDefaultGemini, geminiVoice, llmProvider, ollamaBaseUrl, ollamaModel, isComplete);
    }

    /** `saveCredentials`. */
    method SaveCredentials(req: SaveRequest)
      modifies this
      ensures store == SavedStore(old(store), req)
      ensures env == SavedEnv(old(env), req)
    {
      if Truthy(req.geminiKey) {
        store := store[GoogleApiKey := req.geminiKey.value];
      } else if req.geminiKey == Some("") {
        store := store - {GoogleApiKey};
      }
      store := PutIfTruthy(store, VoiceName, req.geminiVoice);
      store := PutIfTruthy(store, Provider, req.llmProvider);
      store := PutIfTruthy(store, OllamaBaseUrl, req.ollamaBaseUrl);
      store := PutIfTruthy(store, OllamaModel, req.ollamaModel);

      if Truthy(req.geminiKey) {
        env := env[EnvGoogle := req.geminiKey.value];
        env := env[EnvGemini := req.geminiKey.value];
      }
      env := PutIfTruthy(env, EnvVoice, req.geminiVoice);
      env := PutIfTruthy(env, EnvProvider, req.llmProvider);
      env := PutIfTruthy(env, EnvBaseUrl, req.ollamaBaseUrl);
      env := PutIfTruthy(env, EnvModel, req.ollamaModel);
    }

    /** `clearCredentials`. */
    method ClearCredentials()
      modifies this
      ensures forall k :: k in store <==> k in old(store) && k !in ClearedKeys
      ensures forall k :: k in store ==> store[k] == old(store)[k]
      ensures env == old(env)
    {
      store := store - {GoogleApiKey};
      store := store - {VoiceName};
      store := store - {Provider};
      store := store - {OllamaBaseUrl};
      store := store - {OllamaModel};
      store := store - {"eleven_api_key"};
      store := store - {"eleven_voice_id"};
    }
  }

  /** Saving a key and loading again uses it as a user key unless it equals the
      environment's default, which is then migrated away. */
  lemma SavedKeyIsLoaded(store: Store, env: Env, req: SaveRequest)
    requires Truthy(req.geminiKey)
    ensures var c := ChooseGeminiKey(Get(SavedStore(store, req), GoogleApiKey), EnvKey(SavedEnv(env, req)));
      c.key == req.geminiKey && c.usingDefault && c.dropStored
  {
  }

  /** Clearing leaves no stored key, so the next load takes the environment's key if any. */
  lemma ClearedLoadUsesEnv(store: Store, env: Env)
    ensures var c := ChooseGeminiKey(Get(store - ClearedKeys, GoogleApiKey), EnvKey(env));
      && (Truthy(c.key) <==> Truthy(EnvKey(env)))
      && (Truthy(EnvKey(env)) ==> c.key == EnvKey(env) && c.usingDefault)
      && !c.dropStored
  {
    assert GoogleApiKey in ClearedKeys;
  }
}
