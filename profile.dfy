/** Model profiles: the validated record each entry of the profile file becomes, the
    `${NAME}` environment expansion applied to its values, and the manager that loads and
    serves them. The parsed YAML is a `Json` value and the environment is a map. */
module Profiles {
  import opened Wrappers
  import opened Strings
  import opened JsonValues
  import opened Dicts

  /** `ModelProfile`; `protocol` is one of "openai", "anthropic", "google". */
  datatype ModelProfile = ModelProfile(
    name: string, vendor: string, protocol: string, baseUrl: Option<string>,
    apiKey: string, model: string, description: Option<string>, isFree: bool,
    extraHeaders: Option<seq<(string, string)>>)

  /** The protocols the profile's `protocol` literal type admits. */
  predicate ValidProtocol(p: string) {
    p == "openai" || p == "anthropic" || p == "google"
  }

  /** `str(profile)`: "vendor/model", tagged " (免费)" for a free profile. */
  function ProfileStr(p: ModelProfile): (r: string)
    ensures p.isFree ==> r == p.vendor + "/" + p.model + " (免费)"
    ensures !p.isFree ==> r == p.vendor + "/" + p.model
  {
    p.vendor + "/" + p.model + (if p.isFree then " (免费)" else "")
  }

  // ---------------------------------------------------------------------------------------
  // Validation of one entry

  /** A required string field. */
  function RequiredString(data: seq<(string, Json)>, key: string): (r: Result<string, PyError>)
    ensures r.Ok? <==> Lookup(data, key).Some? && Lookup(data, key).value.JString?
    ensures r.Ok? ==> Lookup(data, key) == Some(JString(r.value))
  {
    var found: Option<Json> := Lookup(data, key);
    match found
    case Some(JString(s)) => Ok(s)
    case _ => Err(ValidationError)
  }

  /** An optional string field: absent or `null` is `None`. */
  function OptionalString(data: seq<(string, Json)>, key: string): (r: Result<Option<string>, PyError>)
    ensures Lookup(data, key).None? || Lookup(data, key) == Some(JNull) ==> r == Ok(None)
    ensures r == Ok(None) ==> Lookup(data, key).None? || Lookup(data, key) == Some(JNull)
    ensures r.Ok? && r.value.Some? ==> Lookup(data, key) == Some(JString(r.value.value))
  {
    var found: Option<Json> := Lookup(data, key);
    match found
    case None => Ok(None)
    case Some(JNull) => Ok(None)
    case Some(JString(s)) => Ok(Some(s))
    case _ => Err(ValidationError)
  }

  /** `is_free`, false when absent. */
  function OptionalBool(data: seq<(string, Json)>, key: string): (r: Result<bool, PyError>)
    ensures Lookup(data, key).None? ==> r == Ok(false)
  {
    var found: Option<Json> := Lookup(data, key);
    match found
    case None => Ok(false)
    case Some(JBool(b)) => Ok(b)
    case _ => Err(ValidationError)
  }

  /** A string-to-string table; `None` when some value is not a string. */
  function StringPairs(fields: seq<(string, Json)>): (r: Option<seq<(string, string)>>)
    ensures r.Some? ==> |r.value| == |fields|
    ensures r.Some? ==> forall i :: 0 <= i < |fields| ==> fields[i] == (r.value[i].0, JString(r.value[i].1))
  {
    if |fields| == 0 then Some([])
    else if !fields[0].1.JString? then None
    else match StringPairs(fields[1..])
      case None => None
      case Some(rest) => Some([(fields[0].0, fields[0].1.s)] + rest)
  }

  /** `extra_headers`: absent or `null` is `None`; otherwise a dict of strings. */
  function OptionalHeaders(data: seq<(string, Json)>, key: string): (r: Result<Option<seq<(string, string)>>, PyError>)
    ensures Lookup(data, key).None? || Lookup(data, key) == Some(JNull) ==> r == Ok(None)
  {
    var found: Option<Json> := Lookup(data, key);
    match found
    case None => Ok(None)
    case Some(JNull) => Ok(None)
    case Some(JObject(fields)) =>
      var pairs := StringPairs(fields);
      if pairs.Some? then Ok(Some(pairs.value)) else Err(ValidationError)
    case _ => Err(ValidationError)
  }

  /** `ModelProfile(**data)`: every required field present with the right type, the
      protocol one of the three, optional fields defaulted. Unknown keys are ignored. */
  function ProfileOf(data: seq<(string, Json)>): (r: Result<ModelProfile, PyError>)
    ensures r.Ok? ==> ValidProtocol(r.value.protocol)
    ensures r.Ok? ==> Lookup(data, "name") == Some(JString(r.value.name))
    ensures r.Ok? ==> Lookup(data, "protocol") == Some(JString(r.value.protocol))
    ensures r.Ok? && Lookup(data, "is_free").None? ==> !r.value.isFree
    ensures r.Err? ==> r.error == ValidationError
  {
    var name :- RequiredString(data, "name");
    var vendor :- RequiredString(data, "vendor");
    var protocol :- RequiredString(data, "protocol");
    if !ValidProtocol(protocol) then Err(ValidationError)
    else ProfileRest(data, name, vendor, protocol)
  }

  /** The fields validated after the protocol, in the model's field order. */
  function ProfileRest(data: seq<(string, Json)>, name: string, vendor: string, protocol: string): (r: Result<ModelProfile, PyError>)
    ensures r.Ok? ==> r.value.name == name && r.value.vendor == vendor && r.value.protocol == protocol
    ensures r.Ok? && Lookup(data, "is_free").None? ==> !r.value.isFree
    ensures r.Err? ==> r.error == ValidationError
  {
    var baseUrl :- OptionalString(data, "base_url");
    var apiKey :- RequiredString(data, "api_key");
    var model :- RequiredString(data, "model");
    var description :- OptionalString(data, "description");
    var isFree :- OptionalBool(data, "is_free");
    var headers :- OptionalHeaders(data, "extra_headers");
    Ok(ModelProfile(name, vendor, protocol, baseUrl, apiKey, model, description, isFree, headers))
  }

  /** A protocol outside the three fails validation, whatever else the entry holds. */
  lemma ProtocolChecked(data: seq<(string, Json)>, protocol: string)
    requires Lookup(data, "protocol") == Some(JString(protocol)) && !ValidProtocol(protocol)
    ensures ProfileOf(data) == Err(ValidationError)
  {
  }

  // ---------------------------------------------------------------------------------------
  // ${NAME} expansion

  /** What one match `${name}` becomes: the variable's value, or the literal when unset. */
  function Substitute(name: string, env: map<string, string>): string {
    if name in env then env[name] else "${" + name + "}"
  }

  /** `re.sub(r"\$\{([^}]+)\}", ...)`, scanning left to right: at a `${` whose first
      following `}` closes a non-empty name, the match is replaced and the scan resumes
      after the `}`; otherwise one character is kept. When no `}` follows at all nothing
      further can match. Text without a `$` is never touched. */
  function ExpandString(s: string, env: map<string, string>): (r: string)
    ensures (forall i :: 0 <= i < |s| ==> s[i] != '$') ==> r == s
    decreases |s|
  {
    if |s| == 0 then ""
    else if StartsWith(s, "${") then
      match FindFrom(s, "}", 2)
      case None => s
      case Some(j) =>
        if j > 2 then Substitute(s[2..j], env) + ExpandString(s[j + 1..], env)
        else [s[0]] + ExpandString(s[1..], env)
    else [s[0]] + ExpandString(s[1..], env)
  }

  /** A string cut around a `${...}` match reads the same put back together. */
  lemma Reassembled(s: string, j: nat)
    requires 2 < j < |s| && "${" <= s && s[j..j + 1] == "}"
    ensures s == "${" + s[2..j] + "}" + s[j + 1..]
  {
    assert s[..2] == "${";
  }

  /** With every variable unset, every match is replaced by itself. */
  lemma {:induction false} ExpandUnset(s: string, env: map<string, string>)
    requires env == map[]
    ensures ExpandString(s, env) == s
    decreases |s|
  {
    if |s| > 0 {
      if StartsWith(s, "${") {
        match FindFrom(s, "}", 2)
        case None =>
        case Some(j) =>
          if j > 2 {
            ExpandUnset(s[j + 1..], env);
            Reassembled(s, j);
          } else {
            ExpandUnset(s[1..], env);
          }
      } else {
        ExpandUnset(s[1..], env);
      }
    }
  }

  /** A placeholder at the front is replaced by its variable's value (or kept when the
      variable is unset), and the scan carries on after it. */
  lemma ExpandPlaceholder(name: string, rest: string, env: map<string, string>)
    requires name != [] && forall i :: 0 <= i < |name| ==> name[i] != '}'
    ensures ExpandString("${" + name + "}" + rest, env) == Substitute(name, env) + ExpandString(rest, env)
  {
    var s := "${" + name + "}" + rest;
    var j := 2 + |name|;
    assert StartsWith(s, "${");
    assert "}" <= s[j..];
    forall k | 2 <= k < j ensures !("}" <= s[k..]) {
      assert s[k] == name[k - 2];
    }
    assert FindFrom(s, "}", 2) == Some(j);
    assert s[2..j] == name && s[j + 1..] == rest;
  }

  /** `_expand_env_vars` on one value: strings are expanded, dicts recursively, everything
      else (lists, numbers, booleans, `None`) is kept as it is. */
  function ExpandValue(v: Json, env: map<string, string>): (r: Json)
    ensures v.JString? <==> r.JString?
    ensures v.JObject? <==> r.JObject?
    ensures v.JObject? ==> Keys(r.fields) == Keys(v.fields)
    ensures !v.JString? && !v.JObject? ==> r == v
    decreases v
  {
    match v
    case JString(s) => JString(ExpandString(s, env))
    case JObject(fields) =>
      JObject(seq(|fields|, i requires 0 <= i < |fields| =>
        assert fields[i] in fields;
        (fields[i].0, ExpandValue(fields[i].1, env))))
    case _ => v
  }

  /** `_expand_env_vars`: the same keys in the same order, each value expanded. */
  function ExpandEnvVars(data: seq<(string, Json)>, env: map<string, string>): (r: seq<(string, Json)>)
    ensures |r| == |data| && forall i :: 0 <= i < |data| ==> r[i] == (data[i].0, ExpandValue(data[i].1, env))
  {
    ExpandValue(JObject(data), env).fields
  }

  lemma ExpandEnvVarsShape(data: seq<(string, Json)>, env: map<string, string>)
    ensures var r := ExpandEnvVars(data, env);
      && |r| == |data| && Keys(r) == Keys(data)
      && (forall i :: 0 <= i < |data| && data[i].1.JString? ==> r[i].1 == JString(ExpandString(data[i].1.s, env)))
      && (forall i :: 0 <= i < |data| && data[i].1.JObject? ==> r[i].1 == JObject(ExpandEnvVars(data[i].1.fields, env)))
      && (forall i :: 0 <= i < |data| && !data[i].1.JString? && !data[i].1.JObject? ==> r[i].1 == data[i].1)
  {
  }

  /** With no variables set, expansion changes nothing. */
  lemma {:induction false} ExpandValueUnset(v: Json, env: map<string, string>)
    requires env == map[]
    ensures ExpandValue(v, env) == v
    decreases v
  {
    match v
    case JString(s) => ExpandUnset(s, env);
    case JObject(fields) =>
      forall i | 0 <= i < |fields| ensures ExpandValue(fields[i].1, env) == fields[i].1 {
        assert fields[i] in fields;
        ExpandValueUnset(fields[i].1, env);
      }
      assert ExpandValue(v, env).fields == fields;
    case _ =>
  }

  // ---------------------------------------------------------------------------------------
  // Loading

  /** The state a load leaves behind: the profiles registered so far and the exception that
      stopped it, if one did. */
  datatype LoadOutcome = LoadOutcome(profiles: seq<(string, ModelProfile)>, error: Option<PyError>)

  /** One entry of `profiles`: a value that is not a dict stops the load (`.items()`
      raises); otherwise it is expanded, its `name` set to the key, and registered under the
      key if it validates; a failing entry is skipped. */
  function LoadEntry(profiles: seq<(string, ModelProfile)>, name: string, data: Json, env: map<string, string>): (r: LoadOutcome)
  {
    if !data.JObject? then LoadOutcome(profiles, Some(AttributeError))
    else
      match ProfileOf(Put(ExpandEnvVars(data.fields, env), "name", JString(name)))
      case Ok(p) => LoadOutcome(Put(profiles, name, p), None)
      case Err(_) => LoadOutcome(profiles, None)
  }

  /** The registration loop over the entries in order; nothing runs after an error. */
  function LoadEntries(profiles: seq<(string, ModelProfile)>, entries: seq<(string, Json)>, env: map<string, string>): (r: LoadOutcome)
  {
    if |entries| == 0 then LoadOutcome(profiles, None)
    else
      var before := LoadEntries(profiles, entries[..|entries| - 1], env);
      if before.error.Some? then before
      else LoadEntry(before.profiles, entries[|entries| - 1].0, entries[|entries| - 1].1, env)
  }

  /** Every profile is stored under its own name, and under one key each. */
  ghost predicate NamedByKey(profiles: seq<(string, ModelProfile)>) {
    DistinctKeys(profiles) && NamesMatch(profiles)
  }

  ghost predicate NamesMatch(profiles: seq<(string, ModelProfile)>) {
    forall i :: 0 <= i < |profiles| ==> profiles[i].1.name == profiles[i].0
  }

  /** The entry's key overrides whatever `name` the entry carried. */
  lemma LoadEntryNames(profiles: seq<(string, ModelProfile)>, name: string, data: Json, env: map<string, string>)
    requires NamedByKey(profiles)
    ensures NamedByKey(LoadEntry(profiles, name, data, env).profiles)
  {
    if data.JObject? {
      var candidate := ProfileOf(Put(ExpandEnvVars(data.fields, env), "name", JString(name)));
      if candidate.Ok? {
        CandidateNamed(ExpandEnvVars(data.fields, env), name);
        PutDistinct(profiles, name, candidate.value);
        PutNamed(profiles, name, candidate.value);
      }
    }
  }

  /** Setting `name` before validation makes it the profile's name. */
  lemma CandidateNamed(data: seq<(string, Json)>, name: string)
    ensures var candidate := ProfileOf(Put(data, "name", JString(name)));
      candidate.Ok? ==> candidate.value.name == name
  {
    LookupPutSame(data, "name", JString(name));
  }

  lemma {:induction false} PutNamed(profiles: seq<(string, ModelProfile)>, name: string, p: ModelProfile)
    requires NamesMatch(profiles)
    requires p.name == name
    ensures NamesMatch(Put(profiles, name, p))
  {
    if |profiles| > 0 && profiles[0].0 != name {
      PutNamed(profiles[1..], name, p);
      var rest := Put(profiles[1..], name, p);
      var r := Put(profiles, name, p);
      assert r == [profiles[0]] + rest;
      forall i | 0 <= i < |r| ensures r[i].1.name == r[i].0 {
        if i > 0 {
          assert r[i] == rest[i - 1];
        }
      }
    } else if |profiles| > 0 {
      assert Put(profiles, name, p) == [(name, p)] + profiles[1..];
    }
  }

  lemma {:induction false} LoadEntriesNames(profiles: seq<(string, ModelProfile)>, entries: seq<(string, Json)>, env: map<string, string>)
    requires NamedByKey(profiles)
    ensures NamedByKey(LoadEntries(profiles, entries, env).profiles)
    decreases |entries|
  {
    if |entries| > 0 {
      var init := entries[..|entries| - 1];
      LoadEntriesNames(profiles, init, env);
      var before := LoadEntries(profiles, init, env);
      if before.error.None? {
        LoadEntryNames(before.profiles, entries[|entries| - 1].0, entries[|entries| - 1].1, env);
      }
    }
  }

  /** A failing entry leaves the registry as it was and does not stop the load. */
  lemma InvalidEntrySkipped(profiles: seq<(string, ModelProfile)>, name: string, data: Json, env: map<string, string>)
    requires data.JObject? && ProfileOf(Put(ExpandEnvVars(data.fields, env), "name", JString(name))).Err?
    ensures LoadEntry(profiles, name, data, env) == LoadOutcome(profiles, None)
  {
  }

  /** One more entry after a run of entries that raised nothing: that entry's outcome. */
  lemma LoadEntriesNext(profiles: seq<(string, ModelProfile)>, entries: seq<(string, Json)>, i: nat, env: map<string, string>,
                        current: seq<(string, ModelProfile)>, next: LoadOutcome)
    requires i < |entries| && LoadEntries(profiles, entries[..i], env) == LoadOutcome(current, None)
    requires LoadEntry(current, entries[i].0, entries[i].1, env) == next
    ensures LoadEntries(profiles, entries[..i + 1], env) == next
  {
    assert entries[..i + 1][..i] == entries[..i];
  }

  /** A valid entry is found under its key afterwards, also when the key was taken. */
  lemma ValidEntryRegistered(profiles: seq<(string, ModelProfile)>, name: string, data: Json, env: map<string, string>)
    requires data.JObject?
    requires ProfileOf(Put(ExpandEnvVars(data.fields, env), "name", JString(name))).Ok?
    ensures var r := LoadEntry(profiles, name, data, env);
      r.error.None? && Lookup(r.profiles, name) == Some(ProfileOf(Put(ExpandEnvVars(data.fields, env), "name", JString(name))).value)
  {
    LookupPutSame(profiles, name, ProfileOf(Put(ExpandEnvVars(data.fields, env), "name", JString(name))).value);
  }

  class ProfileManager {
    var profiles: seq<(string, ModelProfile)>
    /** `_default_profile_name`: whatever `default_profile` held, `JNull` for `None`. */
    var defaultName: Json

    ghost predicate Valid()
      reads this
    {
      NamedByKey(profiles)
    }

    constructor ()
      ensures Valid() && profiles == [] && defaultName == JNull
    {
      profiles := [];
      defaultName := JNull;
    }

    /** `load_from_yaml`. `fileExists` is whether the file exists and `config` what
        `yaml.safe_load` returned. A missing file raises `FileNotFoundError` and a document
        that is not a mapping raises at `.get`, both before anything changes; otherwise the
        default name is stored first and the entries are registered in order, a `profiles`
        value that is not a mapping raising at `.items()`. */
    method LoadFromYaml(fileExists: bool, config: Json, env: map<string, string>) returns (r: Result<(), PyError>)
      requires Valid()
      modifies this
      ensures Valid()
      ensures !fileExists ==> r == Err(FileNotFoundError) && profiles == old(profiles) && defaultName == old(defaultName)
      ensures fileExists && !config.JObject? ==> r == Err(AttributeError) && profiles == old(profiles) && defaultName == old(defaultName)
      ensures fileExists && config.JObject? ==> defaultName == GetOr(config, "default_profile", JNull)
      ensures fileExists && config.JObject? ==>
        var entries := GetOr(config, "profiles", JObject([]));
        if !entries.JObject? then r == Err(AttributeError) && profiles == old(profiles)
        else
          var outcome := LoadEntries(old(profiles), entries.fields, env);
          profiles == outcome.profiles && (r.Err? <==> outcome.error.Some?) && (r.Err? ==> r.error == outcome.error.value)
    {
      if !fileExists {
        return Err(FileNotFoundError);
      }
      if !config.JObject? {
        return Err(AttributeError);
      }
      defaultName := GetOr(config, "default_profile", JNull);
      var entries := GetOr(config, "profiles", JObject([]));
      if !entries.JObject? {
        return Err(AttributeError);
      }
      r := Register(entries.fields, env);
    }

    /** The registration loop of `load_from_yaml` over the `profiles` mapping. */
    method Register(entries: seq<(string, Json)>, env: map<string, string>) returns (r: Result<(), PyError>)
      requires Valid()
      modifies this
      ensures Valid() && defaultName == old(defaultName)
      ensures var outcome := LoadEntries(old(profiles), entries, env);
        profiles == outcome.profiles && (r.Err? <==> outcome.error.Some?) && (r.Err? ==> r.error == outcome.error.value)
    {
      var i := 0;
      while i < |entries|
        invariant 0 <= i <= |entries|
        invariant LoadEntries(old(profiles), entries[..i], env) == LoadOutcome(profiles, None)
        invariant Valid() && defaultName == old(defaultName)
      {
        var error := AddNext(entries, i, env, old(profiles));
        if error.Some? {
          return Err(error.value);
        }
        i := i + 1;
      }
      assert entries[..|entries|] == entries;
      r := Ok(());
    }

    /** The loop's pass over `entries[i]`, after the entries before it raised nothing: an
        error it raises is the outcome of the whole loop. */
    method AddNext(entries: seq<(string, Json)>, i: nat, env: map<string, string>, ghost start: seq<(string, ModelProfile)>)
        returns (error: Option<PyError>)
      requires Valid() && i < |entries| && LoadEntries(start, entries[..i], env) == LoadOutcome(profiles, None)
      modifies this
      ensures Valid() && defaultName == old(defaultName)
      ensures LoadEntries(start, entries[..i + 1], env) == LoadOutcome(profiles, error)
      ensures error.Some? ==> LoadEntries(start, entries, env) == LoadOutcome(profiles, error)
    {
      ghost var current := profiles;
      error := Add(entries[i].0, entries[i].1, env);
      LoadEntriesNext(start, entries, i, env, current, LoadOutcome(profiles, error));
      if error.Some? {
        ErrorStops(start, entries, i + 1, env);
      }
    }

    /** One pass of the registration loop: the entry `name: data` is validated and, when it
        makes a valid profile, stored under `name`; an entry that is not a dict raises. */
    method Add(name: string, data: Json, env: map<string, string>) returns (error: Option<PyError>)
      requires Valid()
      modifies this
      ensures Valid() && defaultName == old(defaultName)
      ensures LoadEntry(old(profiles), name, data, env) == LoadOutcome(profiles, error)
    {
      LoadEntryNames(profiles, name, data, env);
      var outcome := LoadEntry(profiles, name, data, env);
      profiles := outcome.profiles;
      error := outcome.error;
    }

    /** `get_profile` */
    function GetProfile(name: string): (r: Option<ModelProfile>)
      requires Valid()
      reads this
      ensures r.Some? ==> r.value.name == name && (name, r.value) in profiles
      ensures r.None? <==> !HasKey(profiles, name)
    {
      LookupNamed(profiles, name);
      Lookup(profiles, name)
    }

    /** `list_profiles`: the names in registration order. */
    function ListProfiles(): (r: seq<string>)
      reads this
      ensures |r| == |profiles| && forall i :: 0 <= i < |r| ==> r[i] == profiles[i].0
    {
      Keys(profiles)
    }

    /** `get_all_profiles`. The copy is a value: nothing done to it reaches the manager. */
    function GetAllProfiles(): (r: seq<(string, ModelProfile)>)
      requires Valid()
      reads this
      ensures forall k :: Lookup(r, k) == GetProfile(k)
      ensures Keys(r) == ListProfiles()
    {
      profiles
    }

    /** `default_profile`: looked up only when the name is truthy. A name that is not a
        string matches no profile (all keys are strings), except that a list or dict is
        unhashable and the lookup raises. */
    function DefaultProfile(): (r: Result<Option<ModelProfile>, PyError>)
      requires Valid()
      reads this
      ensures !Truthy(defaultName) ==> r == Ok(None)
      ensures Truthy(defaultName) && defaultName.JString? ==> r == Ok(GetProfile(defaultName.s))
      ensures r.Ok? && r.value.Some? ==> defaultName == JString(r.value.value.name)
      ensures r.Err? <==> Truthy(defaultName) && (defaultName.JArray? || defaultName.JObject?)
    {
      if !Truthy(defaultName) then Ok(None)
      else if defaultName.JString? then Ok(GetProfile(defaultName.s))
      else if defaultName.JArray? || defaultName.JObject? then Err(TypeError)
      else Ok(None)
    }

    /** `len(manager)` */
    function Len(): (r: nat)
      reads this
      ensures r == |ListProfiles()|
    {
      |profiles|
    }

    /** `name in manager` */
    predicate Contains(name: string)
      requires Valid()
      reads this
      ensures Contains(name) <==> GetProfile(name).Some?
    {
      HasKey(profiles, name)
    }
  }

  lemma {:induction false} ErrorStops(profiles: seq<(string, ModelProfile)>, entries: seq<(string, Json)>, k: nat, env: map<string, string>)
    requires k <= |entries| && LoadEntries(profiles, entries[..k], env).error.Some?
    ensures LoadEntries(profiles, entries, env) == LoadEntries(profiles, entries[..k], env)
    decreases |entries| - k
  {
    if k < |entries| {
      assert entries[..k + 1][..k] == entries[..k];
      ErrorStops(profiles, entries, k + 1, env);
    } else {
      assert entries[..k] == entries;
    }
  }

  lemma {:induction false} LookupNamed(profiles: seq<(string, ModelProfile)>, name: string)
    requires NamesMatch(profiles)
    ensures Lookup(profiles, name).Some? ==> Lookup(profiles, name).value.name == name
    ensures Lookup(profiles, name).Some? ==> (name, Lookup(profiles, name).value) in profiles
    ensures Lookup(profiles, name).None? <==> !HasKey(profiles, name)
  {
    if |profiles| > 0 && profiles[0].0 != name {
      LookupNamed(profiles[1..], name);
      assert Keys(profiles) == [profiles[0].0] + Keys(profiles[1..]);
    }
  }
}
