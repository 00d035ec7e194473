/** The three-layer prompt system: default system prompts per language, app guides found by
    package name, and feature hints found by trigger keywords, assembled with a block
    describing the device and the task's progress. The prompt directory's contents are
    given as already-read values. */
module PromptAssembly {
  import opened Wrappers
  import opened Strings
  import opened JsonValues
  import opened Dicts

  /** `PromptContext`; `history` is not read by anything modelled here. */
  datatype PromptContext = PromptContext(
    task: string,
    currentApp: Option<string>,
    deviceInfo: Option<seq<(string, Json)>>,
    installedApps: Option<seq<string>>,
    detectedFeature: Option<string>,
    stepCount: int,
    maxSteps: int)

  /** `AppPromptConfig`; `scenarios` is validated but never read. */
  datatype AppPromptConfig = AppPromptConfig(name: string, package: string, aliases: seq<string>, systemPrompt: string)

  /** `FeaturePromptConfig`; `examples` is validated but never read. */
  datatype FeaturePromptConfig = FeaturePromptConfig(name: string, triggerKeywords: seq<string>, systemPrompt: string)

  /** What the prompt directory holds. A missing sub-directory is `None`; a YAML file
      that cannot be read or parsed is a `None` entry (its exception is caught). System
      prompts are `(file stem, text)` pairs. */
  datatype PromptSources = PromptSources(
    systemFiles: Option<seq<(string, string)>>,
    appFiles: Option<seq<Option<Json>>>,
    featureFiles: Option<seq<Option<Json>>>)

  // ---------------------------------------------------------------------------------------
  // Validation of the YAML configs

  /** A list of strings, or `None` when some item is not a string. */
  function StringList(items: seq<Json>): (r: Option<seq<string>>)
    ensures r.Some? ==> |r.value| == |items| && forall i :: 0 <= i < |items| ==> items[i] == JString(r.value[i])
  {
    if |items| == 0 then Some([])
    else if !items[0].JString? then None
    else match StringList(items[1..])
      case None => None
      case Some(rest) => Some([items[0].s] + rest)
  }

  /** An optional list-of-strings field, `[]` when absent. */
  function ListField(data: seq<(string, Json)>, key: string): (r: Option<seq<string>>)
    ensures Lookup(data, key).None? ==> r == Some([])
  {
    var found: Option<Json> := Lookup(data, key);
    match found
    case None => Some([])
    case Some(JArray(items)) => StringList(items)
    case Some(_) => None
  }

  /** An optional string field, `""` when absent. */
  function TextField(data: seq<(string, Json)>, key: string): (r: Option<string>)
    ensures Lookup(data, key).None? ==> r == Some("")
  {
    var found: Option<Json> := Lookup(data, key);
    match found
    case None => Some("")
    case Some(JString(s)) => Some(s)
    case Some(_) => None
  }

  /** A required string field. */
  function NameField(data: seq<(string, Json)>, key: string): (r: Option<string>)
    ensures r.Some? ==> Lookup(data, key) == Some(JString(r.value))
  {
    var found: Option<Json> := Lookup(data, key);
    match found
    case Some(JString(s)) => Some(s)
    case _ => None
  }

  /** `AppPromptConfig(**config)`; any failure (a document that is not a mapping included)
      is `None`. `scenarios` must be absent, `null`, or a mapping of mappings. */
  function AppConfigOf(config: Json): (r: Option<AppPromptConfig>)
    ensures r.Some? ==> config.JObject? && Lookup(config.fields, "name") == Some(JString(r.value.name))
  {
    if !config.JObject? then None
    else
      var data := config.fields;
      var scenarios: Option<Json> := Lookup(data, "scenarios");
      var scenariosOk := match scenarios
        case None => true
        case Some(JNull) => true
        case Some(JObject(fs)) => forall i :: 0 <= i < |fs| ==> fs[i].1.JObject?
        case Some(_) => false;
      var name :- NameField(data, "name");
      var package :- NameField(data, "package");
      var aliases :- ListField(data, "aliases");
      var prompt :- TextField(data, "system_prompt");
      if scenariosOk then Some(AppPromptConfig(name, package, aliases, prompt)) else None
  }

  /** `FeaturePromptConfig(**config)`; `examples` must be absent, `null` or a list of
      strings. */
  function FeatureConfigOf(config: Json): (r: Option<FeaturePromptConfig>)
    ensures r.Some? ==> config.JObject? && Lookup(config.fields, "name") == Some(JString(r.value.name))
  {
    if !config.JObject? then None
    else
      var data := config.fields;
      var examples: Option<Json> := Lookup(data, "examples");
      var examplesOk := match examples
        case None => true
        case Some(JNull) => true
        case Some(JArray(items)) => StringList(items).Some?
        case Some(_) => false;
      var name :- NameField(data, "name");
      var keywords :- ListField(data, "trigger_keywords");
      var prompt :- TextField(data, "system_prompt");
      if examplesOk then Some(FeaturePromptConfig(name, keywords, prompt)) else None
  }

  // ---------------------------------------------------------------------------------------
  // The tables and how loading fills them

  datatype PromptTables = PromptTables(
    systemPrompts: seq<(string, string)>,
    appPrompts: seq<(string, AppPromptConfig)>,
    featurePrompts: seq<(string, FeaturePromptConfig)>,
    packageToApp: seq<(string, string)>)

  /** The language a system prompt file serves: its stem with every "default_" removed. */
  function LanguageOf(stem: string): string {
    Replace(stem, "default_", "")
  }

  /** `_load_system_prompts` over the files in order: each text is stored under its
      language, a later file replacing an earlier one. */
  function AddSystemPrompts(prompts: seq<(string, string)>, files: seq<(string, string)>): seq<(string, string)>
  {
    if |files| == 0 then prompts
    else Put(AddSystemPrompts(prompts, files[..|files| - 1]), LanguageOf(files[|files| - 1].0), files[|files| - 1].1)
  }

  lemma AddSystemPromptsStep(prompts: seq<(string, string)>, files: seq<(string, string)>, i: nat)
    requires i < |files|
    ensures AddSystemPrompts(prompts, files[..i + 1]) == Put(AddSystemPrompts(prompts, files[..i]), LanguageOf(files[i].0), files[i].1)
  {
    assert files[..i + 1][..i] == files[..i];
  }

  /** Registering a config under each alias in turn. */
  function AddAliases(apps: seq<(string, AppPromptConfig)>, aliases: seq<string>, config: AppPromptConfig): seq<(string, AppPromptConfig)>
  {
    if |aliases| == 0 then apps
    else Put(AddAliases(apps, aliases[..|aliases| - 1], config), aliases[|aliases| - 1], config)
  }

  /** One app file: registered under its name, its package mapped to the name, then
      registered under each alias; a file that fails validation changes nothing. */
  function AddAppFile(apps: seq<(string, AppPromptConfig)>, packages: seq<(string, string)>, file: Option<Json>)
    : (seq<(string, AppPromptConfig)>, seq<(string, string)>)
  {
    var config := if file.Some? then AppConfigOf(file.value) else None;
    if config.None? then (apps, packages)
    else (AddAliases(Put(apps, config.value.name, config.value), config.value.aliases, config.value),
          Put(packages, config.value.package, config.value.name))
  }

  function AddAppFiles(apps: seq<(string, AppPromptConfig)>, packages: seq<(string, string)>, files: seq<Option<Json>>)
    : (seq<(string, AppPromptConfig)>, seq<(string, string)>)
  {
    if |files| == 0 then (apps, packages)
    else
      var before := AddAppFiles(apps, packages, files[..|files| - 1]);
      AddAppFile(before.0, before.1, files[|files| - 1])
  }

  /** `_load_feature_prompts` over the files in order. */
  function AddFeatureFiles(features: seq<(string, FeaturePromptConfig)>, files: seq<Option<Json>>): seq<(string, FeaturePromptConfig)>
  {
    if |files| == 0 then features
    else
      var before := AddFeatureFiles(features, files[..|files| - 1]);
      var file := files[|files| - 1];
      var config := if file.Some? then FeatureConfigOf(file.value) else None;
      if config.Some? then Put(before, config.value.name, config.value) else before
  }

  lemma AddAliasesStep(apps: seq<(string, AppPromptConfig)>, aliases: seq<string>, k: nat, config: AppPromptConfig)
    requires k < |aliases|
    ensures AddAliases(apps, aliases[..k + 1], config) == Put(AddAliases(apps, aliases[..k], config), aliases[k], config)
  {
    assert aliases[..k + 1][..k] == aliases[..k];
  }

  lemma AddAppFilesStep(apps: seq<(string, AppPromptConfig)>, packages: seq<(string, string)>, files: seq<Option<Json>>, i: nat)
    requires i < |files|
    ensures var before := AddAppFiles(apps, packages, files[..i]);
            AddAppFiles(apps, packages, files[..i + 1]) == AddAppFile(before.0, before.1, files[i])
  {
    assert files[..i + 1][..i] == files[..i];
  }

  lemma AddFeatureFilesStep(features: seq<(string, FeaturePromptConfig)>, files: seq<Option<Json>>, i: nat)
    requires i < |files|
    ensures var config := if files[i].Some? then FeatureConfigOf(files[i].value) else None;
            AddFeatureFiles(features, files[..i + 1])
              == if config.Some? then Put(AddFeatureFiles(features, files[..i]), config.value.name, config.value)
                 else AddFeatureFiles(features, files[..i])
  {
    assert files[..i + 1][..i] == files[..i];
  }

  /** `load`: the three loaders over what the directory holds; a missing sub-directory
      leaves its tables as they were. */
  function Loaded(t: PromptTables, src: PromptSources): (r: PromptTables)
  {
    var apps := if src.appFiles.Some? then AddAppFiles(t.appPrompts, t.packageToApp, src.appFiles.value) else (t.appPrompts, t.packageToApp);
    PromptTables(
      if src.systemFiles.Some? then AddSystemPrompts(t.systemPrompts, src.systemFiles.value) else t.systemPrompts,
      apps.0,
      if src.featureFiles.Some? then AddFeatureFiles(t.featurePrompts, src.featureFiles.value) else t.featurePrompts,
      apps.1)
  }

  /** Every app registered under an alias is found under that alias afterwards. */
  lemma {:induction false} AliasesRegistered(apps: seq<(string, AppPromptConfig)>, aliases: seq<string>, config: AppPromptConfig, k: nat)
    requires k < |aliases|
    ensures Lookup(AddAliases(apps, aliases, config), aliases[k]) == Some(config)
    decreases |aliases|
  {
    var init := aliases[..|aliases| - 1];
    if k == |aliases| - 1 {
      LookupPutSame(AddAliases(apps, init, config), aliases[k], config);
    } else {
      AliasesRegistered(apps, init, config, k);
      if aliases[|aliases| - 1] != aliases[k] {
        LookupPutOther(AddAliases(apps, init, config), aliases[|aliases| - 1], config, aliases[k]);
      } else {
        LookupPutSame(AddAliases(apps, init, config), aliases[k], config);
      }
    }
  }

  /** After a valid app file, its package leads to its name, and its name and every alias
      to a config: its own, unless an alias reuses its name, which then points at the same
      config anyway. */
  lemma AppFileIndexed(apps: seq<(string, AppPromptConfig)>, packages: seq<(string, string)>, file: Json)
    requires AppConfigOf(file).Some?
    ensures var config := AppConfigOf(file).value;
      var after := AddAppFile(apps, packages, Some(file));
      && Lookup(after.1, config.package) == Some(config.name)
      && Lookup(after.0, config.name) == Some(config)
      && forall k :: 0 <= k < |config.aliases| ==> Lookup(after.0, config.aliases[k]) == Some(config)
  {
    var config := AppConfigOf(file).value;
    LookupPutSame(packages, config.package, config.name);
    var named := Put(apps, config.name, config);
    LookupPutSame(apps, config.name, config);
    AliasesKeep(named, config.aliases, config, config.name);
    forall k | 0 <= k < |config.aliases| ensures Lookup(AddAliases(named, config.aliases, config), config.aliases[k]) == Some(config) {
      AliasesRegistered(named, config.aliases, config, k);
    }
  }

  /** Registering aliases for a config keeps every key that already pointed at it. */
  lemma {:induction false} AliasesKeep(apps: seq<(string, AppPromptConfig)>, aliases: seq<string>, config: AppPromptConfig, key: string)
    requires Lookup(apps, key) == Some(config)
    ensures Lookup(AddAliases(apps, aliases, config), key) == Some(config)
    decreases |aliases|
  {
    if |aliases| > 0 {
      var init := aliases[..|aliases| - 1];
      AliasesKeep(apps, init, config, key);
      if aliases[|aliases| - 1] == key {
        LookupPutSame(AddAliases(apps, init, config), key, config);
      } else {
        LookupPutOther(AddAliases(apps, init, config), aliases[|aliases| - 1], config, key);
      }
    }
  }

  // ---------------------------------------------------------------------------------------
  // Feature detection

  /** Some keyword, lower-cased, occurs in the lower-cased task. */
  predicate AnyKeyword(keywords: seq<string>, taskLower: string) {
    exists k :: 0 <= k < |keywords| && Contains(taskLower, Lower(keywords[k]))
  }

  /** The position of the first feature, in insertion order, with a matching keyword. */
  function FirstFeature(features: seq<(string, FeaturePromptConfig)>, taskLower: string): (r: Option<nat>)
    ensures r.Some? ==> r.value < |features| && AnyKeyword(features[r.value].1.triggerKeywords, taskLower)
    ensures r.Some? ==> forall j :: 0 <= j < r.value ==> !AnyKeyword(features[j].1.triggerKeywords, taskLower)
    ensures r.None? ==> forall j :: 0 <= j < |features| ==> !AnyKeyword(features[j].1.triggerKeywords, taskLower)
  {
    if |features| == 0 then None
    else if AnyKeyword(features[0].1.triggerKeywords, taskLower) then Some(0)
    else match FirstFeature(features[1..], taskLower)
      case None => None
      case Some(k) => Some(k + 1)
  }

  /** The scan over one feature's keywords: whether any of them is found. */
  method KeywordFound(keywords: seq<string>, taskLower: string) returns (found: bool)
    ensures found <==> AnyKeyword(keywords, taskLower)
  {
    var k := 0;
    while k < |keywords|
      invariant 0 <= k <= |keywords|
      invariant forall j :: 0 <= j < k ==> !Contains(taskLower, Lower(keywords[j]))
    {
      if Contains(taskLower, Lower(keywords[k])) {
        return true;
      }
      k := k + 1;
    }
    return false;
  }

  /** `detect_feature`: the nested scan with its early return, over features in insertion
      order and their keywords in order; the name of the first feature hit, or `None`. */
  method DetectFeature(features: seq<(string, FeaturePromptConfig)>, task: string) returns (r: Option<string>)
    ensures var first := FirstFeature(features, Lower(task));
      r == if first.Some? then Some(features[first.value].0) else None
  {
    var taskLower := Lower(task);
    var i := 0;
    while i < |features|
      invariant 0 <= i <= |features|
      invariant forall j :: 0 <= j < i ==> !AnyKeyword(features[j].1.triggerKeywords, taskLower)
    {
      var found := KeywordFound(features[i].1.triggerKeywords, taskLower);
      if found {
        FirstFeatureAt(features, taskLower, i);
        return Some(features[i].0);
      }
      i := i + 1;
    }
    FirstFeatureNone(features, taskLower);
    return None;
  }

  /** The feature found first is the first one that matches. */
  lemma {:induction false} FirstFeatureAt(features: seq<(string, FeaturePromptConfig)>, taskLower: string, i: nat)
    requires i < |features| && AnyKeyword(features[i].1.triggerKeywords, taskLower)
    requires forall j :: 0 <= j < i ==> !AnyKeyword(features[j].1.triggerKeywords, taskLower)
    ensures FirstFeature(features, taskLower) == Some(i)
    decreases i
  {
    if i > 0 {
      FirstFeatureAt(features[1..], taskLower, i - 1);
    }
  }

  lemma {:induction false} FirstFeatureNone(features: seq<(string, FeaturePromptConfig)>, taskLower: string)
    requires forall j :: 0 <= j < |features| ==> !AnyKeyword(features[j].1.triggerKeywords, taskLower)
    ensures FirstFeature(features, taskLower) == None
    decreases |features|
  {
    if |features| > 0 {
      FirstFeatureNone(features[1..], taskLower);
    }
  }

  /** The name `detect_feature` returns, as a function. */
  function Detected(features: seq<(string, FeaturePromptConfig)>, task: string): Option<string> {
    var first := FirstFeature(features, Lower(task));
    if first.Some? then Some(features[first.value].0) else None
  }

  // ---------------------------------------------------------------------------------------
  // The context block

  /** `... or None` on an optional string: present and non-empty. */
  predicate Given(s: Option<string>) {
    s.Some? && s.value != ""
  }

  /** The device and screen lines, read from the device info with their defaults: empty
      brand and model, 1080 by 1920. */
  function DeviceLines(codec: Codec, info: seq<(string, Json)>): (r: seq<string>)
    ensures |r| == 2
  {
    var device := JObject(info);
    ["- 设备: " + PyStr(codec, GetOr(device, "brand", JString(""))) + " " + PyStr(codec, GetOr(device, "model", JString(""))),
     "- 屏幕: " + PyStr(codec, GetOr(device, "screen_width", JInt(1080))) + "x" + PyStr(codec, GetOr(device, "screen_height", JInt(1920)))]
  }

  /** The first twenty installed apps, and their count when there are more. */
  function InstalledLines(all: seq<string>): (r: seq<string>)
    ensures |all| <= 20 ==> r == ["- 已安装应用: " + Join(all, ", ")]
    ensures |all| > 20 ==> r == ["- 已安装应用: " + Join(all[..20], ", "), "  (共 " + NatToString(|all|) + " 个)"]
  {
    ["- 已安装应用: " + Join(if |all| > 20 then all[..20] else all, ", ")]
      + (if |all| > 20 then ["  (共 " + NatToString(|all|) + " 个)"] else [])
  }

  /** The lines of `_build_context_info`, in order: device and screen when there is device
      info, the current app, the installed apps; the step line always comes last. */
  function ContextLines(codec: Codec, context: PromptContext): (r: seq<string>)
    ensures |r| >= 1 && r[|r| - 1] == "- 步骤: " + IntToString(context.stepCount) + "/" + IntToString(context.maxSteps)
  {
    var device := if context.deviceInfo.Some? && context.deviceInfo.value != [] then DeviceLines(codec, context.deviceInfo.value) else [];
    var app := if Given(context.currentApp) then ["- 当前应用: " + context.currentApp.value] else [];
    var apps := if context.installedApps.Some? && context.installedApps.value != [] then InstalledLines(context.installedApps.value) else [];
    device + app + apps + ["- 步骤: " + IntToString(context.stepCount) + "/" + IntToString(context.maxSteps)]
  }

  /** `_build_context_info`: the context lines joined by newlines. The block is never empty,
      so the state section is always present. */
  function BuildContextInfo(codec: Codec, context: PromptContext): (r: string)
    ensures r != ""
  {
    var lines := ContextLines(codec, context);
    JoinLast(lines, "\n");
    Join(lines, "\n")
  }

  lemma {:induction false} JoinLast(parts: seq<string>, sep: string)
    requires |parts| > 0 && parts[|parts| - 1] != ""
    ensures Join(parts, sep) != ""
    decreases |parts|
  {
    if |parts| > 1 {
      JoinCons(parts[0], parts[1..], sep);
      assert Join(parts, sep) == parts[0] + sep + Join(parts[1..], sep);
      JoinLast(parts[1..], sep);
    }
  }

  /** With device info present, missing screen sizes read as 1080 by 1920. */
  lemma ScreenDefaults(codec: Codec, info: seq<(string, Json)>)
    requires !HasKey(info, "screen_width") && !HasKey(info, "screen_height")
    ensures DeviceLines(codec, info)[1] == "- 屏幕: 1080x1920"
  {
    assert GetOr(JObject(info), "screen_width", JInt(1080)) == JInt(1080);
    assert GetOr(JObject(info), "screen_height", JInt(1920)) == JInt(1920);
    Spell1080();
    Spell1920();
    assert PyStr(codec, JInt(1080)) == "1080";
    assert PyStr(codec, JInt(1920)) == "1920";
    assert DeviceLines(codec, info)[1] == "- 屏幕: " + "1080" + "x" + "1920";
    DefaultScreenText();
  }

  lemma DefaultScreenText()
    ensures "- 屏幕: " + "1080" + "x" + "1920" == "- 屏幕: 1080x1920"
  {
  }

  lemma Spell1080()
    ensures IntToString(1080) == "1080"
  {
    assert NatToString(10) == NatToString(1) + [DigitChar(0)];
    assert NatToString(108) == NatToString(10) + [DigitChar(8)];
    assert NatToString(1080) == NatToString(108) + [DigitChar(0)];
  }

  lemma Spell1920()
    ensures IntToString(1920) == "1920"
  {
    assert NatToString(19) == NatToString(1) + [DigitChar(9)];
    assert NatToString(192) == NatToString(19) + [DigitChar(2)];
    assert NatToString(1920) == NatToString(192) + [DigitChar(0)];
  }

  // ---------------------------------------------------------------------------------------
  // The assembled prompt

  /** The app named by a package, if its name is non-empty and registered. */
  function AppForPackage(t: PromptTables, package: string): (r: Option<AppPromptConfig>)
    ensures r.Some? ==> exists name :: Lookup(t.packageToApp, package) == Some(name) && name != "" && Lookup(t.appPrompts, name) == r
    ensures Lookup(t.packageToApp, package).None? ==> r.None?
  {
    var name := Lookup(t.packageToApp, package);
    if name.Some? && name.value != "" then Lookup(t.appPrompts, name.value) else None
  }

  /** The default prompt: the one for `lang` when non-empty, else the one for "zh", else
      none. */
  function DefaultSection(t: PromptTables, lang: string): (r: seq<string>)
    ensures |r| <= 1
  {
    var chosen := Lookup(t.systemPrompts, lang);
    var default := if chosen.Some? && chosen.value != "" then chosen.value else Lookup(t.systemPrompts, "zh").GetOr("");
    if default != "" then [default] else []
  }

  /** The app guide, when the current app's package leads to a config with a prompt. */
  function AppSection(t: PromptTables, context: PromptContext): (r: seq<string>)
    ensures |r| <= 1
  {
    var app := if Given(context.currentApp) then AppForPackage(t, context.currentApp.value) else None;
    if app.Some? && app.value.systemPrompt != "" then ["\n## " + app.value.name + " 操作指南\n\n" + app.value.systemPrompt] else []
  }

  /** The feature hint, when the feature has a config. */
  function FeatureSection(t: PromptTables, feature: Option<string>): (r: seq<string>)
    ensures |r| <= 1
  {
    var hint := if Given(feature) then Lookup(t.featurePrompts, feature.value) else None;
    if hint.Some? then ["\n## " + hint.value.name + "功能提示\n\n" + hint.value.systemPrompt] else []
  }

  /** The state section; the block is never empty, so it is always there. */
  function StateSection(codec: Codec, context: PromptContext): (r: seq<string>)
    ensures r == ["\n## 当前状态\n\n" + BuildContextInfo(codec, context)]
  {
    var info := BuildContextInfo(codec, context);
    if info != "" then ["\n## 当前状态\n\n" + info] else []
  }

  /** The feature whose hint is used: the context's, else the detected one. */
  function ChosenFeature(t: PromptTables, context: PromptContext): Option<string> {
    if Given(context.detectedFeature) then context.detectedFeature else Detected(t.featurePrompts, context.task)
  }

  /** The parts `build_system_prompt` joins, in order: the default prompt, the app guide,
      the feature hint, the state section. */
  function PromptParts(t: PromptTables, codec: Codec, context: PromptContext, lang: string): (r: seq<string>)
    ensures 1 <= |r| <= 4 && r[|r| - 1] == "\n## 当前状态\n\n" + BuildContextInfo(codec, context)
  {
    DefaultSection(t, lang) + AppSection(t, context) + FeatureSection(t, ChosenFeature(t, context)) + StateSection(codec, context)
  }

  /** A feature named by the context wins over detection: the task's words then change
      nothing in the prompt. */
  lemma DetectedFeatureOverrides(t: PromptTables, codec: Codec, context: PromptContext, lang: string, task: string)
    requires Given(context.detectedFeature)
    ensures PromptParts(t, codec, context, lang) == PromptParts(t, codec, context.(task := task), lang)
  {
    var other := context.(task := task);
    assert ChosenFeature(t, context) == ChosenFeature(t, other);
    assert AppSection(t, context) == AppSection(t, other);
    assert ContextLines(codec, context) == ContextLines(codec, other);
    assert StateSection(codec, context) == StateSection(codec, other);
  }

  /** The prompt opens with the language's default prompt when there is a non-empty one. */
  lemma LanguagePromptFirst(t: PromptTables, codec: Codec, context: PromptContext, lang: string)
    requires Lookup(t.systemPrompts, lang).Some? && Lookup(t.systemPrompts, lang).value != ""
    ensures PromptParts(t, codec, context, lang)[0] == Lookup(t.systemPrompts, lang).value
  {
  }

  /** Otherwise it opens with the Chinese prompt, when there is a non-empty one. */
  lemma ChineseFallback(t: PromptTables, codec: Codec, context: PromptContext, lang: string)
    requires Lookup(t.systemPrompts, lang).None? || Lookup(t.systemPrompts, lang).value == ""
    requires Lookup(t.systemPrompts, "zh").Some? && Lookup(t.systemPrompts, "zh").value != ""
    ensures PromptParts(t, codec, context, lang)[0] == Lookup(t.systemPrompts, "zh").value
  {
  }

  // ---------------------------------------------------------------------------------------
  // Listing the apps

  /** `set(self._app_prompts.values())` as written: the configs are pydantic models that
      are not frozen, hence unhashable, so building the set raises `TypeError` as soon as
      one app is registered. */
  function ListAppsAsWritten(apps: seq<(string, AppPromptConfig)>): (r: Result<seq<string>, PyError>)
    ensures r.Ok? <==> apps == []
  {
    if |apps| == 0 then Ok([]) else Err(TypeError)
  }

  /** One well-formed app file is enough to make the listing fail. */
  lemma ListAppsFailsOnOneApp()
    ensures var file := JObject([("name", JString("Taobao")), ("package", JString("com.taobao.taobao"))]);
      ListAppsAsWritten(AddAppFile([], [], Some(file)).0) == Err(TypeError)
  {
    var file := JObject([("name", JString("Taobao")), ("package", JString("com.taobao.taobao"))]);
    var config := AppPromptConfig("Taobao", "com.taobao.taobao", [], "");
    assert AppConfigOf(file) == Some(config);
  }

  /** The distinct configs, in order of first appearance. */
  function DistinctConfigs(cs: seq<AppPromptConfig>): (r: seq<AppPromptConfig>)
    ensures forall c :: c in r <==> c in cs
    ensures forall i, j :: 0 <= i < j < |r| ==> r[i] != r[j]
  {
    if |cs| == 0 then []
    else
      var rest := DistinctConfigs(cs[..|cs| - 1]);
      assert cs == cs[..|cs| - 1] + [cs[|cs| - 1]];
      if cs[|cs| - 1] in rest then rest else rest + [cs[|cs| - 1]]
  }

  /** The intended listing: one name per distinct registered config, so an app shows once
      however many aliases it has, and every registered app shows. */
  function ListedApps(apps: seq<(string, AppPromptConfig)>): (r: seq<string>)
    ensures forall k :: 0 <= k < |apps| ==> apps[k].1.name in r
    ensures forall n :: n in r ==> exists k :: 0 <= k < |apps| && apps[k].1.name == n
    ensures |r| <= |apps|
  {
    var configs := DistinctConfigs(Values(apps));
    var r := seq(|configs|, i requires 0 <= i < |configs| => configs[i].name);
    assert |configs| <= |apps| by { DistinctShorter(configs, Values(apps)); }
    forall k | 0 <= k < |apps| ensures apps[k].1.name in r {
      assert Values(apps)[k] == apps[k].1;
      assert apps[k].1 in Values(apps);
      assert apps[k].1 in configs;
      var i :| 0 <= i < |configs| && configs[i] == apps[k].1;
      assert r[i] == apps[k].1.name;
    }
    forall n | n in r ensures exists k :: 0 <= k < |apps| && apps[k].1.name == n {
      var i :| 0 <= i < |r| && r[i] == n;
      assert configs[i] in Values(apps);
      var k :| 0 <= k < |apps| && Values(apps)[k] == configs[i];
    }
    r
  }

  /** A sequence without repeats drawn from `cs` is no longer than `cs`. */
  lemma {:induction false} DistinctShorter(r: seq<AppPromptConfig>, cs: seq<AppPromptConfig>)
    requires forall c :: c in r ==> c in cs
    requires forall i, j :: 0 <= i < j < |r| ==> r[i] != r[j]
    ensures |r| <= |cs|
  {
    var rs := set i | 0 <= i < |r| :: r[i];
    var ss := set i | 0 <= i < |cs| :: cs[i];
    forall c | c in rs ensures c in ss {
      var i :| 0 <= i < |r| && r[i] == c;
      assert c in r;
      var j :| 0 <= j < |cs| && cs[j] == c;
    }
    CardOfDistinct(r);
    CardAtMost(cs);
    assert |rs| <= |ss| by { SubsetCard(rs, ss); }
  }

  lemma {:induction false} CardOfDistinct(r: seq<AppPromptConfig>)
    requires forall i, j :: 0 <= i < j < |r| ==> r[i] != r[j]
    ensures |set i | 0 <= i < |r| :: r[i]| == |r|
    decreases |r|
  {
    if |r| > 0 {
      var init := r[..|r| - 1];
      CardOfDistinct(init);
      var s := set i | 0 <= i < |init| :: init[i];
      assert (set i | 0 <= i < |r| :: r[i]) == s + {r[|r| - 1]};
      assert r[|r| - 1] !in s;
    }
  }

  lemma {:induction false} CardAtMost(cs: seq<AppPromptConfig>)
    ensures |set i | 0 <= i < |cs| :: cs[i]| <= |cs|
    decreases |cs|
  {
    if |cs| > 0 {
      var init := cs[..|cs| - 1];
      CardAtMost(init);
      assert (set i | 0 <= i < |cs| :: cs[i]) == (set i | 0 <= i < |init| :: init[i]) + {cs[|cs| - 1]};
    }
  }

  lemma SubsetCard(a: set<AppPromptConfig>, b: set<AppPromptConfig>)
    requires a <= b
    ensures |a| <= |b|
  {
    assert b == a + (b - a);
  }

  class PromptManager {
    var systemPrompts: seq<(string, string)>
    var appPrompts: seq<(string, AppPromptConfig)>
    var featurePrompts: seq<(string, FeaturePromptConfig)>
    var packageToApp: seq<(string, string)>
    var loaded: bool
    /** The prompt directory's contents, and Python's `str()` for device values. */
    const sources: PromptSources
    const codec: Codec

    constructor (sources: PromptSources, codec: Codec)
      ensures this.sources == sources && this.codec == codec
      ensures Tables() == PromptTables([], [], [], []) && !loaded
    {
      this.sources := sources;
      this.codec := codec;
      systemPrompts := [];
      appPrompts := [];
      featurePrompts := [];
      packageToApp := [];
      loaded := false;
    }

    function Tables(): PromptTables
      reads this
    {
      PromptTables(systemPrompts, appPrompts, featurePrompts, packageToApp)
    }

    /** `load` */
    method Load()
      modifies this
      ensures loaded && Tables() == Loaded(old(Tables()), sources)
    {
      LoadSystemPrompts();
      LoadAppPrompts();
      LoadFeaturePrompts();
      loaded := true;
    }

    method LoadSystemPrompts()
      modifies this
      ensures systemPrompts == if sources.systemFiles.Some? then AddSystemPrompts(old(systemPrompts), sources.systemFiles.value) else old(systemPrompts)
      ensures appPrompts == old(appPrompts) && featurePrompts == old(featurePrompts) && packageToApp == old(packageToApp) && loaded == old(loaded)
    {
      if sources.systemFiles.None? {
        return;
      }
      var files := sources.systemFiles.value;
      var i := 0;
      while i < |files|
        invariant 0 <= i <= |files|
        invariant systemPrompts == AddSystemPrompts(old(systemPrompts), files[..i])
        invariant appPrompts == old(appPrompts) && featurePrompts == old(featurePrompts) && packageToApp == old(packageToApp) && loaded == old(loaded)
      {
        AddSystemPromptsStep(old(systemPrompts), files, i);
        systemPrompts := Put(systemPrompts, LanguageOf(files[i].0), files[i].1);
        i := i + 1;
      }
      assert files[..|files|] == files;
    }

    method LoadAppPrompts()
      modifies this
      ensures (appPrompts, packageToApp) ==
        if sources.appFiles.Some? then AddAppFiles(old(appPrompts), old(packageToApp), sources.appFiles.value) else (old(appPrompts), old(packageToApp))
      ensures systemPrompts == old(systemPrompts) && featurePrompts == old(featurePrompts) && loaded == old(loaded)
    {
      if sources.appFiles.None? {
        return;
      }
      var files := sources.appFiles.value;
      var i := 0;
      while i < |files|
        invariant 0 <= i <= |files|
        invariant (appPrompts, packageToApp) == AddAppFiles(old(appPrompts), old(packageToApp), files[..i])
        invariant systemPrompts == old(systemPrompts) && featurePrompts == old(featurePrompts) && loaded == old(loaded)
      {
        AddAppFilesStep(old(appPrompts), old(packageToApp), files, i);
        var config := if files[i].Some? then AppConfigOf(files[i].value) else None;
        if config.Some? {
          var app := config.value;
          appPrompts := Put(appPrompts, app.name, app);
          packageToApp := Put(packageToApp, app.package, app.name);
          RegisterAliases(app);
        }
        i := i + 1;
      }
      assert files[..|files|] == files;
    }

    /** `for alias in app_config.aliases: self._app_prompts[alias] = app_config` */
    method RegisterAliases(app: AppPromptConfig)
      modifies this
      ensures appPrompts == AddAliases(old(appPrompts), app.aliases, app)
      ensures systemPrompts == old(systemPrompts) && featurePrompts == old(featurePrompts)
      ensures packageToApp == old(packageToApp) && loaded == old(loaded)
    {
      var k := 0;
      while k < |app.aliases|
        invariant 0 <= k <= |app.aliases|
        invariant appPrompts == AddAliases(old(appPrompts), app.aliases[..k], app)
        invariant systemPrompts == old(systemPrompts) && featurePrompts == old(featurePrompts)
        invariant packageToApp == old(packageToApp) && loaded == old(loaded)
      {
        AddAliasesStep(old(appPrompts), app.aliases, k, app);
        appPrompts := Put(appPrompts, app.aliases[k], app);
        k := k + 1;
      }
      assert app.aliases[..|app.aliases|] == app.aliases;
    }

    method LoadFeaturePrompts()
      modifies this
      ensures featurePrompts == if sources.featureFiles.Some? then AddFeatureFiles(old(featurePrompts), sources.featureFiles.value) else old(featurePrompts)
      ensures systemPrompts == old(systemPrompts) && appPrompts == old(appPrompts) && packageToApp == old(packageToApp) && loaded == old(loaded)
    {
      if sources.featureFiles.None? {
        return;
      }
      var files := sources.featureFiles.value;
      var i := 0;
      while i < |files|
        invariant 0 <= i <= |files|
        invariant featurePrompts == AddFeatureFiles(old(featurePrompts), files[..i])
        invariant systemPrompts == old(systemPrompts) && appPrompts == old(appPrompts) && packageToApp == old(packageToApp) && loaded == old(loaded)
      {
        AddFeatureFilesStep(old(featurePrompts), files, i);
        var config := if files[i].Some? then FeatureConfigOf(files[i].value) else None;
        if config.Some? {
          featurePrompts := Put(featurePrompts, config.value.name, config.value);
        }
        i := i + 1;
      }
      assert files[..|files|] == files;
    }

    /** Loads on first use only. */
    method EnsureLoaded()
      modifies this
      ensures loaded
      ensures Tables() == if old(loaded) then old(Tables()) else Loaded(old(Tables()), sources)
    {
      if !loaded {
        Load();
      }
    }

    /** `get_app_config_by_package` (no loading of its own). */
    function GetAppConfigByPackage(package: string): (r: Option<AppPromptConfig>)
      reads this
      ensures r == AppForPackage(Tables(), package)
    {
      var name := Lookup(packageToApp, package);
      if name.Some? && name.value != "" then Lookup(appPrompts, name.value) else None
    }

    /** `build_system_prompt` */
    method BuildSystemPrompt(context: PromptContext, lang: string) returns (prompt: string)
      modifies this
      ensures loaded
      ensures Tables() == if old(loaded) then old(Tables()) else Loaded(old(Tables()), sources)
      ensures prompt == Join(PromptParts(Tables(), codec, context, lang), "\n")
    {
      EnsureLoaded();
      var t := Tables();
      var parts := DefaultSection(t, lang);
      parts := parts + AppSection(t, context);
      var feature := context.detectedFeature;
      if !Given(feature) {
        feature := DetectFeature(featurePrompts, context.task);
      }
      parts := parts + FeatureSection(t, feature);
      parts := parts + StateSection(codec, context);
      prompt := Join(parts, "\n");
    }

    /** `list_apps`, in the intended form (see `ListAppsAsWritten`). */
    method ListApps() returns (names: seq<string>)
      modifies this
      ensures loaded && Tables() == if old(loaded) then old(Tables()) else Loaded(old(Tables()), sources)
      ensures names == ListedApps(appPrompts)
    {
      EnsureLoaded();
      names := ListedApps(appPrompts);
    }

    /** `list_features`: the feature names in insertion order. */
    method ListFeatures() returns (names: seq<string>)
      modifies this
      ensures loaded && Tables() == if old(loaded) then old(Tables()) else Loaded(old(Tables()), sources)
      ensures names == Keys(featurePrompts)
    {
      EnsureLoaded();
      names := Keys(featurePrompts);
    }

    /** `get_app_prompt`: the app's prompt, `""` when no app is registered under the name. */
    method GetAppPrompt(appName: string) returns (prompt: string)
      modifies this
      ensures loaded && Tables() == if old(loaded) then old(Tables()) else Loaded(old(Tables()), sources)
      ensures Lookup(appPrompts, appName).Some? ==> prompt == Lookup(appPrompts, appName).value.systemPrompt
      ensures Lookup(appPrompts, appName).None? ==> prompt == ""
    {
      EnsureLoaded();
      var config := Lookup(appPrompts, appName);
      prompt := if config.Some? then config.value.systemPrompt else "";
    }

    /** `get_feature_prompt` */
    method GetFeaturePrompt(feature: string) returns (prompt: string)
      modifies this
      ensures loaded && Tables() == if old(loaded) then old(Tables()) else Loaded(old(Tables()), sources)
      ensures Lookup(featurePrompts, feature).Some? ==> prompt == Lookup(featurePrompts, feature).value.systemPrompt
      ensures Lookup(featurePrompts, feature).None? ==> prompt == ""
    {
      EnsureLoaded();
      var config := Lookup(featurePrompts, feature);
      prompt := if config.Some? then config.value.systemPrompt else "";
    }
  }
}
