/** The settings screen's data handling: merging new values into the lines of the `.env`
    file, the profile form written into the profiles YAML document, and the profile chosen
    from the list. Widgets, files and notifications are left to the caller: the file's
    lines and the widget values come in, the text or document to write goes out. */
module SettingsScreen {
  import opened Wrappers
  import opened Strings
  import opened Dicts
  import opened JsonValues
  import opened Profiles

  // ---------------------------------------------------------------------------------------
  // The .env line merge

  /** A line that belongs to `key`: it starts with "KEY=", or, where commented-out
      assignments count, with "# KEY=". */
  predicate KeyLine(line: string, key: string, commented: bool) {
    StartsWith(line, key + "=") || (commented && StartsWith(line, "# " + key + "="))
  }

  /** The first key of the mapping, in order, that the line belongs to. */
  function FirstKey(line: string, mapping: seq<(string, string)>, commented: bool): (r: Option<nat>)
    ensures r.Some? ==> r.value < |mapping| && KeyLine(line, mapping[r.value].0, commented)
    ensures r.Some? ==> forall j :: 0 <= j < r.value ==> !KeyLine(line, mapping[j].0, commented)
    ensures r.None? ==> forall j :: 0 <= j < |mapping| ==> !KeyLine(line, mapping[j].0, commented)
  {
    if |mapping| == 0 then None
    else if KeyLine(line, mapping[0].0, commented) then Some(0)
    else match FirstKey(line, mapping[1..], commented)
      case None => None
      case Some(k) => Some(k + 1)
  }

  lemma {:induction false} FirstKeyAt(line: string, mapping: seq<(string, string)>, commented: bool, k: nat)
    requires k < |mapping| && KeyLine(line, mapping[k].0, commented)
    requires forall j :: 0 <= j < k ==> !KeyLine(line, mapping[j].0, commented)
    ensures FirstKey(line, mapping, commented) == Some(k)
    decreases k
  {
    if k > 0 {
      FirstKeyAt(line, mapping[1..], commented, k - 1);
    }
  }

  /** `f"{key}={value}"` */
  function Assignment(key: string, value: string): string {
    key + "=" + value
  }

  /** What one existing line becomes: kept when it belongs to no key; else its key's new
      assignment, or nothing when the new value is empty. */
  function MergedLine(line: string, mapping: seq<(string, string)>, commented: bool): (r: seq<string>)
    ensures FirstKey(line, mapping, commented).None? ==> r == [line]
    ensures FirstKey(line, mapping, commented).Some? ==>
      var k := FirstKey(line, mapping, commented).value;
      r == if mapping[k].1 != "" then [Assignment(mapping[k].0, mapping[k].1)] else []
  {
    var k := FirstKey(line, mapping, commented);
    if k.None? then [line]
    else if mapping[k.value].1 != "" then [Assignment(mapping[k.value].0, mapping[k.value].1)]
    else []
  }

  /** The existing lines after the first loop. */
  function RewrittenLines(lines: seq<string>, mapping: seq<(string, string)>, commented: bool): seq<string>
  {
    if |lines| == 0 then []
    else RewrittenLines(lines[..|lines| - 1], mapping, commented) + MergedLine(lines[|lines| - 1], mapping, commented)
  }

  /** `updated_keys`: the keys some existing line was rewritten for. */
  function UpdatedKeys(lines: seq<string>, mapping: seq<(string, string)>, commented: bool): set<string>
  {
    if |lines| == 0 then {}
    else
      var k := FirstKey(lines[|lines| - 1], mapping, commented);
      UpdatedKeys(lines[..|lines| - 1], mapping, commented)
        + (if k.Some? && mapping[k.value].1 != "" then {mapping[k.value].0} else {})
  }

  /** The second loop: the keys with a value and no rewritten line, in mapping order. */
  function AppendedLines(mapping: seq<(string, string)>, updated: set<string>): seq<string>
  {
    if |mapping| == 0 then []
    else
      var last := mapping[|mapping| - 1];
      AppendedLines(mapping[..|mapping| - 1], updated) + (if last.0 !in updated && last.1 != "" then [Assignment(last.0, last.1)] else [])
  }

  /** The merged lines. Every line that belongs to a mapped key holds that key's new,
      non-empty value; so no empty value is ever written. */
  function MergedEnv(lines: seq<string>, mapping: seq<(string, string)>, commented: bool): (r: seq<string>)
    ensures PlainKeys(mapping) ==> AllSettled(r, mapping, commented)
  {
    MergedPartsSettled(lines, mapping, commented);
    RewrittenLines(lines, mapping, commented) + AppendedLines(mapping, UpdatedKeys(lines, mapping, commented))
  }

  /** `"\n".join(new_lines) + "\n"` */
  function EnvText(lines: seq<string>): string {
    Join(lines, "\n") + "\n"
  }

  /** One more existing line: its merged form is appended, and its key, if rewritten, added. */
  lemma MergeStep(lines: seq<string>, i: nat, mapping: seq<(string, string)>, commented: bool)
    requires i < |lines|
    ensures RewrittenLines(lines[..i + 1], mapping, commented)
              == RewrittenLines(lines[..i], mapping, commented) + MergedLine(lines[i], mapping, commented)
    ensures var k := FirstKey(lines[i], mapping, commented);
            UpdatedKeys(lines[..i + 1], mapping, commented)
              == UpdatedKeys(lines[..i], mapping, commented) + (if k.Some? && mapping[k.value].1 != "" then {mapping[k.value].0} else {})
  {
    assert lines[..i + 1][..i] == lines[..i];
  }

  /** One more key of the second loop. */
  lemma AppendStep(mapping: seq<(string, string)>, m: nat, updated: set<string>)
    requires m < |mapping|
    ensures AppendedLines(mapping[..m + 1], updated)
              == AppendedLines(mapping[..m], updated)
                 + (if mapping[m].0 !in updated && mapping[m].1 != "" then [Assignment(mapping[m].0, mapping[m].1)] else [])
  {
    assert mapping[..m + 1][..m] == mapping[..m];
  }

  /** The inner loop of the merge: the keys are tried in order against the line, and the
      first that matches ends the search. */
  method MatchKey(line: string, mapping: seq<(string, string)>, commented: bool) returns (k: Option<nat>)
    ensures k == FirstKey(line, mapping, commented)
  {
    var j := 0;
    while j < |mapping|
      invariant 0 <= j <= |mapping|
      invariant forall i :: 0 <= i < j ==> !KeyLine(line, mapping[i].0, commented)
    {
      var key := mapping[j].0;
      if StartsWith(line, key + "=") || (commented && StartsWith(line, "# " + key + "=")) {
        FirstKeyAt(line, mapping, commented, j);
        return Some(j);
      }
      j := j + 1;
    }
    return None;
  }

  /** The merge loops of `_save_api_keys` and `_save_settings`: for each existing line the
      keys are tried in order and the first that matches decides; then the keys left over
      are appended. */
  method MergeEnvLines(existing: seq<string>, mapping: seq<(string, string)>, commented: bool) returns (newLines: seq<string>)
    ensures newLines == MergedEnv(existing, mapping, commented)
  {
    var updatedKeys: set<string> := {};
    newLines := [];
    var i := 0;
    while i < |existing|
      invariant 0 <= i <= |existing|
      invariant newLines == RewrittenLines(existing[..i], mapping, commented)
      invariant updatedKeys == UpdatedKeys(existing[..i], mapping, commented)
    {
      var line := existing[i];
      MergeStep(existing, i, mapping, commented);
      var k := MatchKey(line, mapping, commented);
      if k.None? {
        newLines := newLines + [line];
      } else if mapping[k.value].1 != "" {
        newLines := newLines + [Assignment(mapping[k.value].0, mapping[k.value].1)];
        updatedKeys := updatedKeys + {mapping[k.value].0};
      }
      i := i + 1;
    }
    assert existing[..|existing|] == existing;
    var m := 0;
    while m < |mapping|
      invariant 0 <= m <= |mapping|
      invariant newLines == RewrittenLines(existing, mapping, commented) + AppendedLines(mapping[..m], updatedKeys)
    {
      AppendStep(mapping, m, updatedKeys);
      var key := mapping[m].0;
      var value := mapping[m].1;
      if key !in updatedKeys && value != "" {
        newLines := newLines + [Assignment(key, value)];
      }
      m := m + 1;
    }
    assert mapping[..|mapping|] == mapping;
  }

  // ---------------------------------------------------------------------------------------
  // What the merge guarantees

  /** Keys for which "KEY=value" can only belong to KEY: distinct, without "=", and not
      starting with "#". The two mappings of the screen are such. */
  predicate PlainKeys(mapping: seq<(string, string)>) {
    DistinctKeys(mapping)
    && forall i :: 0 <= i < |mapping| ==> (forall c :: 0 <= c < |mapping[i].0| ==> mapping[i].0[c] != '=') && !StartsWith(mapping[i].0, "#")
  }

  /** "b=v" does not start with "a=" for another key `a`, when neither holds "=". */
  lemma OtherKeyPrefix(a: string, b: string, v: string)
    requires a != b
    requires forall c :: 0 <= c < |a| ==> a[c] != '='
    requires forall c :: 0 <= c < |b| ==> b[c] != '='
    ensures !StartsWith(Assignment(b, v), a + "=")
  {
    var s := Assignment(b, v);
    var p := a + "=";
    if |a| < |b| {
      assert p[|a|] == '=' && s[|a|] == b[|a|];
    } else if |a| > |b| {
      assert s[|b|] == '=' && p[|b|] == a[|b|];
    } else {
      assert s[..|a|] == b && p[..|a|] == a;
    }
  }

  /** A written assignment belongs to its own key first. */
  lemma OwnKeyFirst(mapping: seq<(string, string)>, commented: bool, k: nat, v: string)
    requires PlainKeys(mapping) && k < |mapping|
    ensures FirstKey(Assignment(mapping[k].0, v), mapping, commented) == Some(k)
  {
    var s := Assignment(mapping[k].0, v);
    assert StartsWith(s, mapping[k].0 + "=");
    forall j | 0 <= j < k ensures !KeyLine(s, mapping[j].0, commented) {
      assert mapping[j].0 != mapping[k].0;
      OtherKeyPrefix(mapping[j].0, mapping[k].0, v);
      if |mapping[k].0| > 0 {
        assert s[0] == mapping[k].0[0];
        assert !StartsWith(mapping[k].0, "#");
        assert s[0] != '#';
      } else {
        assert s[0] == '=';
      }
      assert ("# " + mapping[j].0 + "=")[0] == '#';
    }
    FirstKeyAt(s, mapping, commented, k);
  }

  /** A line that a second merge leaves alone: it belongs to no key, or it is its key's
      current non-empty assignment. */
  predicate Settled(line: string, mapping: seq<(string, string)>, commented: bool) {
    var k := FirstKey(line, mapping, commented);
    k.Some? ==> mapping[k.value].1 != "" && line == Assignment(mapping[k.value].0, mapping[k.value].1)
  }

  predicate AllSettled(lines: seq<string>, mapping: seq<(string, string)>, commented: bool) {
    forall i :: 0 <= i < |lines| ==> Settled(lines[i], mapping, commented)
  }

  lemma SettledConcat(a: seq<string>, b: seq<string>, mapping: seq<(string, string)>, commented: bool)
    requires AllSettled(a, mapping, commented) && AllSettled(b, mapping, commented)
    ensures AllSettled(a + b, mapping, commented)
  {
    forall i | 0 <= i < |a + b| ensures Settled((a + b)[i], mapping, commented) {
      if i < |a| {
        assert (a + b)[i] == a[i];
      } else {
        assert (a + b)[i] == b[i - |a|];
      }
    }
  }

  lemma {:induction false} RewrittenSettled(lines: seq<string>, mapping: seq<(string, string)>, commented: bool)
    requires PlainKeys(mapping)
    ensures AllSettled(RewrittenLines(lines, mapping, commented), mapping, commented)
    decreases |lines|
  {
    if |lines| > 0 {
      RewrittenSettled(lines[..|lines| - 1], mapping, commented);
      var last := lines[|lines| - 1];
      var k := FirstKey(last, mapping, commented);
      if k.Some? {
        OwnKeyFirst(mapping, commented, k.value, mapping[k.value].1);
      }
      var tail := MergedLine(last, mapping, commented);
      assert AllSettled(tail, mapping, commented);
      SettledConcat(RewrittenLines(lines[..|lines| - 1], mapping, commented), tail, mapping, commented);
    }
  }

  lemma {:induction false} AppendedSettled(mapping: seq<(string, string)>, prefix: nat, updated: set<string>, commented: bool)
    requires PlainKeys(mapping) && prefix <= |mapping|
    ensures AllSettled(AppendedLines(mapping[..prefix], updated), mapping, commented)
    decreases prefix
  {
    if prefix > 0 {
      assert mapping[..prefix][..prefix - 1] == mapping[..prefix - 1];
      AppendedSettled(mapping, prefix - 1, updated, commented);
      OwnKeyFirst(mapping, commented, prefix - 1, mapping[prefix - 1].1);
      var last := mapping[prefix - 1];
      var tail := if last.0 !in updated && last.1 != "" then [Assignment(last.0, last.1)] else [];
      assert AllSettled(tail, mapping, commented);
      SettledConcat(AppendedLines(mapping[..prefix - 1], updated), tail, mapping, commented);
    }
  }

  /** The rewritten lines and the appended ones are each settled, and so is their
      concatenation. */
  lemma MergedPartsSettled(lines: seq<string>, mapping: seq<(string, string)>, commented: bool)
    ensures PlainKeys(mapping) ==>
      AllSettled(RewrittenLines(lines, mapping, commented) + AppendedLines(mapping, UpdatedKeys(lines, mapping, commented)), mapping, commented)
  {
    if PlainKeys(mapping) {
      RewrittenSettled(lines, mapping, commented);
      assert mapping[..|mapping|] == mapping;
      AppendedSettled(mapping, |mapping|, UpdatedKeys(lines, mapping, commented), commented);
      SettledConcat(RewrittenLines(lines, mapping, commented), AppendedLines(mapping, UpdatedKeys(lines, mapping, commented)), mapping, commented);
    }
  }

  /** A key counts as updated only if some line was rewritten with its non-empty value. */
  lemma {:induction false} UpdatedWritten(lines: seq<string>, mapping: seq<(string, string)>, commented: bool, k: nat)
    requires PlainKeys(mapping) && k < |mapping| && mapping[k].0 in UpdatedKeys(lines, mapping, commented)
    ensures mapping[k].1 != "" && Assignment(mapping[k].0, mapping[k].1) in RewrittenLines(lines, mapping, commented)
    decreases |lines|
  {
    var init := lines[..|lines| - 1];
    var j := FirstKey(lines[|lines| - 1], mapping, commented);
    if j.Some? && mapping[j.value].1 != "" && mapping[j.value].0 == mapping[k].0 {
      assert j.value == k;
    } else {
      UpdatedWritten(init, mapping, commented, k);
    }
  }

  /** Every key with a value not counted as updated is appended. */
  lemma {:induction false} AppendedHas(mapping: seq<(string, string)>, updated: set<string>, k: nat)
    requires k < |mapping| && mapping[k].0 !in updated && mapping[k].1 != ""
    ensures Assignment(mapping[k].0, mapping[k].1) in AppendedLines(mapping, updated)
    decreases |mapping|
  {
    if k < |mapping| - 1 {
      AppendedHas(mapping[..|mapping| - 1], updated, k);
    }
  }

  /** Every key with a non-empty value ends up assigned that value in the merged file. */
  lemma MergedAssignsEveryKey(lines: seq<string>, mapping: seq<(string, string)>, commented: bool, k: nat)
    requires PlainKeys(mapping) && k < |mapping| && mapping[k].1 != ""
    ensures Assignment(mapping[k].0, mapping[k].1) in MergedEnv(lines, mapping, commented)
  {
    var updated := UpdatedKeys(lines, mapping, commented);
    if mapping[k].0 in updated {
      UpdatedWritten(lines, mapping, commented, k);
    } else {
      AppendedHas(mapping, updated, k);
    }
  }

  /** A merge over settled lines changes none of them. */
  lemma {:induction false} RewrittenSettledSame(lines: seq<string>, mapping: seq<(string, string)>, commented: bool)
    requires AllSettled(lines, mapping, commented)
    ensures RewrittenLines(lines, mapping, commented) == lines
    decreases |lines|
  {
    if |lines| > 0 {
      var init, last := lines[..|lines| - 1], lines[|lines| - 1];
      assert AllSettled(init, mapping, commented) by {
        forall i | 0 <= i < |init| ensures Settled(init[i], mapping, commented) {
          assert init[i] == lines[i];
        }
      }
      RewrittenSettledSame(init, mapping, commented);
      SettledKept(last, mapping, commented);
      assert RewrittenLines(lines, mapping, commented) == RewrittenLines(init, mapping, commented) + MergedLine(last, mapping, commented);
      assert lines == init + [last];
    }
  }

  /** A settled line is merged into itself. */
  lemma SettledKept(line: string, mapping: seq<(string, string)>, commented: bool)
    requires Settled(line, mapping, commented)
    ensures MergedLine(line, mapping, commented) == [line]
  {
  }

  /** A key whose assignment is among the lines counts as updated. */
  lemma {:induction false} UpdatedHas(lines: seq<string>, mapping: seq<(string, string)>, commented: bool, k: nat, i: nat)
    requires PlainKeys(mapping) && k < |mapping| && mapping[k].1 != ""
    requires i < |lines| && lines[i] == Assignment(mapping[k].0, mapping[k].1)
    ensures mapping[k].0 in UpdatedKeys(lines, mapping, commented)
    decreases |lines|
  {
    if i < |lines| - 1 {
      UpdatedHas(lines[..|lines| - 1], mapping, commented, k, i);
    } else {
      OwnKeyFirst(mapping, commented, k, mapping[k].1);
    }
  }

  /** Nothing is appended when every key with a value counts as updated. */
  lemma {:induction false} NothingAppended(mapping: seq<(string, string)>, updated: set<string>)
    requires forall k :: 0 <= k < |mapping| && mapping[k].1 != "" ==> mapping[k].0 in updated
    ensures AppendedLines(mapping, updated) == []
    decreases |mapping|
  {
    if |mapping| > 0 {
      NothingAppended(mapping[..|mapping| - 1], updated);
    }
  }

  /** Merging the merged lines again with the same values gives the same lines. */
  lemma MergeIdempotent(lines: seq<string>, mapping: seq<(string, string)>, commented: bool)
    requires PlainKeys(mapping)
    ensures MergedEnv(MergedEnv(lines, mapping, commented), mapping, commented) == MergedEnv(lines, mapping, commented)
  {
    var out := MergedEnv(lines, mapping, commented);
    RewrittenSettledSame(out, mapping, commented);
    var updated := UpdatedKeys(out, mapping, commented);
    forall k | 0 <= k < |mapping| && mapping[k].1 != "" ensures mapping[k].0 in updated {
      MergedAssignsEveryKey(lines, mapping, commented, k);
      var i :| 0 <= i < |out| && out[i] == Assignment(mapping[k].0, mapping[k].1);
      UpdatedHas(out, mapping, commented, k, i);
    }
    NothingAppended(mapping, updated);
  }

  /** The lines that belong to no key. */
  function Unmatched(lines: seq<string>, mapping: seq<(string, string)>, commented: bool): seq<string>
  {
    if |lines| == 0 then []
    else
      Unmatched(lines[..|lines| - 1], mapping, commented)
        + (if FirstKey(lines[|lines| - 1], mapping, commented).None? then [lines[|lines| - 1]] else [])
  }

  lemma {:induction false} UnmatchedAppend(a: seq<string>, b: seq<string>, mapping: seq<(string, string)>, commented: bool)
    ensures Unmatched(a + b, mapping, commented) == Unmatched(a, mapping, commented) + Unmatched(b, mapping, commented)
    decreases |b|
  {
    if |b| > 0 {
      assert (a + b)[..|a + b| - 1] == a + b[..|b| - 1];
      assert (a + b)[|a + b| - 1] == b[|b| - 1];
      UnmatchedAppend(a, b[..|b| - 1], mapping, commented);
    } else {
      assert a + b == a;
    }
  }

  lemma {:induction false} RewrittenUnmatched(lines: seq<string>, mapping: seq<(string, string)>, commented: bool)
    requires PlainKeys(mapping)
    ensures Unmatched(RewrittenLines(lines, mapping, commented), mapping, commented) == Unmatched(lines, mapping, commented)
    decreases |lines|
  {
    if |lines| > 0 {
      var init := lines[..|lines| - 1];
      var last := lines[|lines| - 1];
      RewrittenUnmatched(init, mapping, commented);
      UnmatchedAppend(RewrittenLines(init, mapping, commented), MergedLine(last, mapping, commented), mapping, commented);
      var k := FirstKey(last, mapping, commented);
      if k.Some? && mapping[k.value].1 != "" {
        OwnKeyFirst(mapping, commented, k.value, mapping[k.value].1);
        assert Unmatched([Assignment(mapping[k.value].0, mapping[k.value].1)], mapping, commented) == [];
      } else if k.None? {
        assert Unmatched([last], mapping, commented) == [last];
      }
    }
  }

  lemma {:induction false} AppendedMatched(mapping: seq<(string, string)>, prefix: nat, updated: set<string>, commented: bool)
    requires PlainKeys(mapping) && prefix <= |mapping|
    ensures Unmatched(AppendedLines(mapping[..prefix], updated), mapping, commented) == []
    decreases prefix
  {
    if prefix > 0 {
      var k := prefix - 1;
      AppendedMatched(mapping, k, updated, commented);
      AppendStep(mapping, k, updated);
      var tail := if mapping[k].0 !in updated && mapping[k].1 != "" then [Assignment(mapping[k].0, mapping[k].1)] else [];
      UnmatchedAppend(AppendedLines(mapping[..k], updated), tail, mapping, commented);
      assert Unmatched(tail, mapping, commented) == [] by {
        if tail != [] {
          OwnKeyFirst(mapping, commented, k, mapping[k].1);
          assert tail[..0] == [];
        }
      }
    }
  }

  /** Lines belonging to no key are kept, all of them and in their order, and the merge
      adds no such line. */
  lemma UnmatchedKept(lines: seq<string>, mapping: seq<(string, string)>, commented: bool)
    requires PlainKeys(mapping)
    ensures Unmatched(MergedEnv(lines, mapping, commented), mapping, commented) == Unmatched(lines, mapping, commented)
  {
    var updated := UpdatedKeys(lines, mapping, commented);
    UnmatchedAppend(RewrittenLines(lines, mapping, commented), AppendedLines(mapping, updated), mapping, commented);
    RewrittenUnmatched(lines, mapping, commented);
    assert mapping[..|mapping|] == mapping;
    AppendedMatched(mapping, |mapping|, updated, commented);
  }

  // ---------------------------------------------------------------------------------------
  // The two .env writers

  /** The API-key fields, in the order the screen maps them. */
  function ApiKeyMapping(volcano: string, openai: string, deepseek: string, anthropic: string, google: string): seq<(string, string)> {
    [("VOLCANO_API_KEY", volcano), ("OPENAI_API_KEY", openai), ("DEEPSEEK_API_KEY", deepseek),
     ("ANTHROPIC_API_KEY", anthropic), ("GOOGLE_API_KEY", google)]
  }

  /** The basic settings; a blank default-profile selection (`None`) maps to "". */
  function SettingsMapping(defaultProfile: Option<string>, maxSteps: string, actionDelay: string, summarizeInterval: string): seq<(string, string)> {
    [("PHONE_AGENT_DEFAULT_PROFILE", defaultProfile.GetOr("")), ("PHONE_AGENT_MAX_STEPS", maxSteps),
     ("PHONE_AGENT_ACTION_DELAY", actionDelay), ("PHONE_AGENT_SUMMARIZE_INTERVAL", summarizeInterval)]
  }

  /** An environment variable name: upper-case letters and underscores. */
  predicate UpperName(key: string) {
    forall c :: 0 <= c < |key| ==> 'A' <= key[c] <= 'Z' || key[c] == '_'
  }

  /** Upper-case names told apart by their characters at position `c` are plain keys. */
  lemma UpperKeysPlain(mapping: seq<(string, string)>, c: nat)
    requires forall i :: 0 <= i < |mapping| ==> c < |mapping[i].0| && UpperName(mapping[i].0)
    requires forall i, j :: 0 <= i < j < |mapping| ==> mapping[i].0[c] != mapping[j].0[c]
    ensures PlainKeys(mapping)
  {
    forall i | 0 <= i < |mapping| ensures !StartsWith(mapping[i].0, "#") {
      assert mapping[i].0[0] != '#';
    }
  }

  /** The API-key mapping meets what the merge's guarantees need. */
  lemma ApiKeysPlain(volcano: string, openai: string, deepseek: string, anthropic: string, google: string)
    ensures PlainKeys(ApiKeyMapping(volcano, openai, deepseek, anthropic, google))
  {
    var api := ApiKeyMapping(volcano, openai, deepseek, anthropic, google);
    ApiNamesUpper();
    assert api[0].0[0] == 'V' && api[1].0[0] == 'O' && api[2].0[0] == 'D' && api[3].0[0] == 'A' && api[4].0[0] == 'G';
    UpperKeysPlain(api, 0);
  }

  lemma ApiNamesUpper()
    ensures UpperName("VOLCANO_API_KEY") && UpperName("OPENAI_API_KEY") && UpperName("DEEPSEEK_API_KEY")
    ensures UpperName("ANTHROPIC_API_KEY") && UpperName("GOOGLE_API_KEY")
  {
  }

  lemma SettingsNamesUpper()
    ensures UpperName("PHONE_AGENT_DEFAULT_PROFILE") && UpperName("PHONE_AGENT_MAX_STEPS")
    ensures UpperName("PHONE_AGENT_ACTION_DELAY") && UpperName("PHONE_AGENT_SUMMARIZE_INTERVAL")
  {
  }

  /** So does the settings mapping. */
  lemma SettingsKeysPlain(defaultProfile: Option<string>, maxSteps: string, actionDelay: string, summarizeInterval: string)
    ensures PlainKeys(SettingsMapping(defaultProfile, maxSteps, actionDelay, summarizeInterval))
  {
    var settings := SettingsMapping(defaultProfile, maxSteps, actionDelay, summarizeInterval);
    SettingsNamesUpper();
    assert settings[0].0[12] == 'D' && settings[1].0[12] == 'M' && settings[2].0[12] == 'A' && settings[3].0[12] == 'S';
    UpperKeysPlain(settings, 12);
  }

  /** `_save_api_keys`: the text written to `.env`; "# KEY=" lines count for API keys. The
      file's lines (`[]` when there is no file) come in. */
  method SaveApiKeys(existing: seq<string>, volcano: string, openai: string, deepseek: string, anthropic: string, google: string)
    returns (text: string)
    ensures text == EnvText(MergedEnv(existing, ApiKeyMapping(volcano, openai, deepseek, anthropic, google), true))
  {
    var lines := MergeEnvLines(existing, ApiKeyMapping(volcano, openai, deepseek, anthropic, google), true);
    text := EnvText(lines);
  }

  /** `_save_settings`: only exact "KEY=" lines count. */
  method SaveSettings(existing: seq<string>, defaultProfile: Option<string>, maxSteps: string, actionDelay: string, summarizeInterval: string)
    returns (text: string)
    ensures text == EnvText(MergedEnv(existing, SettingsMapping(defaultProfile, maxSteps, actionDelay, summarizeInterval), false))
  {
    var lines := MergeEnvLines(existing, SettingsMapping(defaultProfile, maxSteps, actionDelay, summarizeInterval), false);
    text := EnvText(lines);
  }

  // ---------------------------------------------------------------------------------------
  // The profile form

  /** The protocols the form offers, as written and as the loader accepts them. */
  const ProtocolOptionsAsWritten: seq<string> := ["openai", "anthropic", "gemini"]
  const ProtocolOptions: seq<string> := ["openai", "anthropic", "google"]

  /** The entry the form stores: blank selections default to "OpenAI" and "openai", empty
      base URL and API key become `null`. */
  function ProfileEntry(vendor: Option<string>, protocol: Option<string>, model: string, baseUrl: string, apiKey: string): seq<(string, Json)> {
    [("vendor", JString(vendor.GetOr("OpenAI"))),
     ("protocol", JString(protocol.GetOr("openai"))),
     ("model", JString(model)),
     ("base_url", if baseUrl != "" then JString(baseUrl) else JNull),
     ("api_key", if apiKey != "" then JString(apiKey) else JNull)]
  }

  datatype SaveOutcome = NotSaved | Saved(document: Json) | SaveFailed(error: PyError)

  /** `_save_profile_form`: a blank name saves nothing; otherwise the stored document
      (`None` when the file is missing; an empty one counts as `{"profiles": {}}`) gets the
      entry under the stripped name, replacing one of the same name. A document whose
      `profiles` is missing or not a mapping fails, and the error is only reported. */
  function SaveProfileForm(nameInput: string, vendor: Option<string>, protocol: Option<string>, model: string,
                           baseUrl: string, apiKey: string, stored: Option<Json>): (r: SaveOutcome)
    ensures r.NotSaved? <==> Strip(nameInput) == ""
    ensures r.Saved? ==> r.document.JObject?
    ensures r.Saved? ==>
      var profiles := Lookup(r.document.fields, "profiles");
      && profiles.Some? && profiles.value.JObject?
      && Lookup(profiles.value.fields, Strip(nameInput)) == Some(JObject(ProfileEntry(vendor, protocol, model, baseUrl, apiKey)))
  {
    var name := Strip(nameInput);
    if name == "" then NotSaved
    else
      var data := if stored.Some? && Truthy(stored.value) then stored.value else JObject([("profiles", JObject([]))]);
      if !data.JObject? then SaveFailed(TypeError)
      else
        var profiles: Option<Json> := Lookup(data.fields, "profiles");
        if profiles.None? then SaveFailed(KeyError)
        else if !profiles.value.JObject? then SaveFailed(TypeError)
        else
          var entry := JObject(ProfileEntry(vendor, protocol, model, baseUrl, apiKey));
          var updated := Put(profiles.value.fields, name, entry);
          LookupPutSame(profiles.value.fields, name, entry);
          LookupPutSame(data.fields, "profiles", JObject(updated));
          Saved(JObject(Put(data.fields, "profiles", JObject(updated))))
  }

  /** Saving leaves every other profile of the document as it was. */
  lemma SaveKeepsOthers(nameInput: string, vendor: Option<string>, protocol: Option<string>, model: string,
                        baseUrl: string, apiKey: string, doc: Json, other: string)
    requires doc.JObject? && Lookup(doc.fields, "profiles").Some? && Lookup(doc.fields, "profiles").value.JObject?
    requires Strip(nameInput) != "" && other != Strip(nameInput)
    ensures var r := SaveProfileForm(nameInput, vendor, protocol, model, baseUrl, apiKey, Some(doc));
      r.Saved? && Lookup(Lookup(r.document.fields, "profiles").value.fields, other)
                  == Lookup(Lookup(doc.fields, "profiles").value.fields, other)
  {
    var name := Strip(nameInput);
    var fields := Lookup(doc.fields, "profiles").value.fields;
    var entry := JObject(ProfileEntry(vendor, protocol, model, baseUrl, apiKey));
    assert Truthy(doc) by {
      assert |doc.fields| > 0;
    }
    var saved := Put(doc.fields, "profiles", JObject(Put(fields, name, entry)));
    assert SaveProfileForm(nameInput, vendor, protocol, model, baseUrl, apiKey, Some(doc)) == Saved(JObject(saved));
    LookupPutSame(doc.fields, "profiles", JObject(Put(fields, name, entry)));
    LookupPutOther(fields, name, entry, other);
  }

  /** The entry has no "name" field, so the loader's name goes at its end. */
  lemma EntryNamed(name: string, vendor: Option<string>, protocol: Option<string>, model: string, baseUrl: string, apiKey: string)
    ensures var entry := ProfileEntry(vendor, protocol, model, baseUrl, apiKey);
      Put(entry, "name", JString(name)) == entry + [("name", JString(name))]
  {
    var entry := ProfileEntry(vendor, protocol, model, baseUrl, apiKey);
    assert Keys(entry) == ["vendor", "protocol", "model", "base_url", "api_key"];
    PutNew(entry, "name", JString(name));
  }

  /** What the loader finds in a saved entry. */
  lemma NamedEntryFields(name: string, vendor: Option<string>, protocol: Option<string>, model: string, baseUrl: string, apiKey: string)
    ensures var data := Put(ProfileEntry(vendor, protocol, model, baseUrl, apiKey), "name", JString(name));
      && Lookup(data, "name") == Some(JString(name))
      && Lookup(data, "vendor") == Some(JString(vendor.GetOr("OpenAI")))
      && Lookup(data, "protocol") == Some(JString(protocol.GetOr("openai")))
      && Lookup(data, "model") == Some(JString(model))
      && Lookup(data, "base_url") == Some(if baseUrl != "" then JString(baseUrl) else JNull)
      && Lookup(data, "api_key") == Some(if apiKey != "" then JString(apiKey) else JNull)
      && Lookup(data, "description").None? && Lookup(data, "is_free").None? && Lookup(data, "extra_headers").None?
  {
    EntryNamed(name, vendor, protocol, model, baseUrl, apiKey);
    var v, p, m := JString(vendor.GetOr("OpenAI")), JString(protocol.GetOr("openai")), JString(model);
    var b, a, n := if baseUrl != "" then JString(baseUrl) else JNull, if apiKey != "" then JString(apiKey) else JNull, JString(name);
    assert ProfileEntry(vendor, protocol, model, baseUrl, apiKey) + [("name", n)]
        == [("vendor", v), ("protocol", p), ("model", m), ("base_url", b), ("api_key", a), ("name", n)];
    EntryLookups(v, p, m, b, a, n);
  }

  /** The fields of a saved entry, found by their distinct first letters. */
  lemma EntryLookups(v: Json, p: Json, m: Json, b: Json, a: Json, n: Json)
    ensures var data := [("vendor", v), ("protocol", p), ("model", m), ("base_url", b), ("api_key", a), ("name", n)];
      && Lookup(data, "vendor") == Some(v) && Lookup(data, "protocol") == Some(p) && Lookup(data, "model") == Some(m)
      && Lookup(data, "base_url") == Some(b) && Lookup(data, "api_key") == Some(a) && Lookup(data, "name") == Some(n)
      && Lookup(data, "description").None? && Lookup(data, "is_free").None? && Lookup(data, "extra_headers").None?
  {
    var data := [("vendor", v), ("protocol", p), ("model", m), ("base_url", b), ("api_key", a), ("name", n)];
    EntryLookupsMissing(data);
    EntryLookupsFront(data);
    EntryLookupsBack(data);
  }

  predicate EntryShape(data: seq<(string, Json)>) {
    |data| == 6 && (forall j :: 0 <= j < 6 ==> |data[j].0| > 0)
    && data[0].0[0] == 'v' && data[1].0[0] == 'p' && data[2].0[0] == 'm'
    && data[3].0[0] == 'b' && data[4].0[0] == 'a' && data[5].0[0] == 'n'
  }

  lemma EntryLookupsMissing(data: seq<(string, Json)>)
    requires EntryShape(data)
    ensures Lookup(data, "description").None? && Lookup(data, "is_free").None? && Lookup(data, "extra_headers").None?
  {
    LookupMissing(data, "description");
    LookupMissing(data, "is_free");
    LookupMissing(data, "extra_headers");
  }

  lemma EntryLookupsFront(data: seq<(string, Json)>)
    requires EntryShape(data) && data[0].0 == "vendor" && data[1].0 == "protocol" && data[2].0 == "model"
    ensures Lookup(data, "vendor") == Some(data[0].1) && Lookup(data, "protocol") == Some(data[1].1)
    ensures Lookup(data, "model") == Some(data[2].1)
  {
    EntryLookup(data, 0, "vendor");
    EntryLookup(data, 1, "protocol");
    EntryLookup(data, 2, "model");
  }

  lemma EntryLookupsBack(data: seq<(string, Json)>)
    requires EntryShape(data) && data[3].0 == "base_url" && data[4].0 == "api_key" && data[5].0 == "name"
    ensures Lookup(data, "base_url") == Some(data[3].1) && Lookup(data, "api_key") == Some(data[4].1)
    ensures Lookup(data, "name") == Some(data[5].1)
  {
    EntryLookup(data, 3, "base_url");
    EntryLookup(data, 4, "api_key");
    EntryLookup(data, 5, "name");
  }

  /** A field of an entry is found where it stands: the keys start with different letters. */
  lemma EntryLookup(data: seq<(string, Json)>, i: nat, k: string)
    requires EntryShape(data) && i < 6 && data[i].0 == k
    ensures Lookup(data, k) == Some(data[i].1)
  {
    LookupAt(data, i, k);
  }

  /** The entry as the profile loader reads it: with its name added. */
  function Loadable(name: string, entry: seq<(string, Json)>): Result<ModelProfile, PyError> {
    ProfileOf(Put(entry, "name", JString(name)))
  }

  /** An entry whose fields are found as given loads as the profile they spell. */
  lemma LoadsFromFields(data: seq<(string, Json)>, name: string, vendor: string, protocol: string, baseUrl: Option<string>,
                        apiKey: string, model: string)
    requires Lookup(data, "name") == Some(JString(name)) && Lookup(data, "vendor") == Some(JString(vendor))
    requires Lookup(data, "protocol") == Some(JString(protocol)) && ValidProtocol(protocol)
    requires Lookup(data, "base_url") == Some(if baseUrl.Some? then JString(baseUrl.value) else JNull)
    requires Lookup(data, "api_key") == Some(JString(apiKey)) && Lookup(data, "model") == Some(JString(model))
    requires Lookup(data, "description").None? && Lookup(data, "is_free").None? && Lookup(data, "extra_headers").None?
    ensures ProfileOf(data) == Ok(ModelProfile(name, vendor, protocol, baseUrl, apiKey, model, None, false, None))
  {
    assert RequiredString(data, "name") == Ok(name);
    assert RequiredString(data, "vendor") == Ok(vendor);
    assert RequiredString(data, "protocol") == Ok(protocol);
    RestFromFields(data, name, vendor, protocol, baseUrl, apiKey, model);
  }

  /** The fields after the protocol, found as given, complete the profile. */
  lemma RestFromFields(data: seq<(string, Json)>, name: string, vendor: string, protocol: string, baseUrl: Option<string>,
                       apiKey: string, model: string)
    requires Lookup(data, "base_url") == Some(if baseUrl.Some? then JString(baseUrl.value) else JNull)
    requires Lookup(data, "api_key") == Some(JString(apiKey)) && Lookup(data, "model") == Some(JString(model))
    requires Lookup(data, "description").None? && Lookup(data, "is_free").None? && Lookup(data, "extra_headers").None?
    ensures ProfileRest(data, name, vendor, protocol) == Ok(ModelProfile(name, vendor, protocol, baseUrl, apiKey, model, None, false, None))
  {
    assert OptionalString(data, "base_url") == Ok(baseUrl);
    assert RequiredString(data, "api_key") == Ok(apiKey);
    assert RequiredString(data, "model") == Ok(model);
    assert OptionalString(data, "description") == Ok(None);
    assert OptionalBool(data, "is_free") == Ok(false);
    assert OptionalHeaders(data, "extra_headers") == Ok(None);
  }

  /** Every offered protocol, saved with an API key, loads back as the profile entered. */
  lemma OfferedProtocolsLoad(name: string, vendor: Option<string>, model: string, baseUrl: string, apiKey: string, k: nat)
    requires k < |ProtocolOptions| && apiKey != ""
    ensures var r := Loadable(name, ProfileEntry(vendor, Some(ProtocolOptions[k]), model, baseUrl, apiKey));
      && r.Ok?
      && r.value == ModelProfile(name, vendor.GetOr("OpenAI"), ProtocolOptions[k], if baseUrl != "" then Some(baseUrl) else None,
                                 apiKey, model, None, false, None)
  {
    var p := ProtocolOptions[k];
    assert ValidProtocol(p);
    NamedEntryFields(name, vendor, Some(p), model, baseUrl, apiKey);
    LoadsFromFields(Put(ProfileEntry(vendor, Some(p), model, baseUrl, apiKey), "name", JString(name)),
                    name, vendor.GetOr("OpenAI"), p, if baseUrl != "" then Some(baseUrl) else None, apiKey, model);
  }

  /** As written, the form offers "gemini", and an entry saved with it never loads. */
  lemma GeminiOptionNeverLoads(name: string, vendor: Option<string>, model: string, baseUrl: string, apiKey: string)
    ensures "gemini" in ProtocolOptionsAsWritten
    ensures Loadable(name, ProfileEntry(vendor, Some("gemini"), model, baseUrl, apiKey)) == Err(ValidationError)
  {
    assert ProtocolOptionsAsWritten[2] == "gemini";
    var data := Put(ProfileEntry(vendor, Some("gemini"), model, baseUrl, apiKey), "name", JString(name));
    assert ProfileOf(data) == Err(ValidationError) by {
      NamedEntryFields(name, vendor, Some("gemini"), model, baseUrl, apiKey);
      ProtocolChecked(data, "gemini");
    }
  }

  /** An entry whose API key is `null` fails validation. */
  lemma NullKeyRejected(data: seq<(string, Json)>, name: string, vendor: string, protocol: string)
    requires Lookup(data, "name") == Some(JString(name)) && Lookup(data, "vendor") == Some(JString(vendor))
    requires Lookup(data, "protocol") == Some(JString(protocol))
    requires Lookup(data, "api_key") == Some(JNull)
    ensures ProfileOf(data).Err?
  {
    assert RequiredString(data, "name") == Ok(name);
    assert RequiredString(data, "vendor") == Ok(vendor);
    assert RequiredString(data, "protocol") == Ok(protocol);
    assert RequiredString(data, "api_key").Err?;
  }

  /** A profile saved with the API key left empty is stored with `null`, which the loader
      rejects: such a profile is skipped when profiles are loaded. */
  lemma EmptyKeyNeverLoads(name: string, vendor: Option<string>, protocol: Option<string>, model: string, baseUrl: string)
    ensures Loadable(name, ProfileEntry(vendor, protocol, model, baseUrl, "")).Err?
  {
    NamedEntryFields(name, vendor, protocol, model, baseUrl, "");
    NullKeyRejected(Put(ProfileEntry(vendor, protocol, model, baseUrl, ""), "name", JString(name)),
                    name, vendor.GetOr("OpenAI"), protocol.GetOr("openai"));
  }

  // ---------------------------------------------------------------------------------------
  // Choosing a profile from the list

  /** The list item for a profile. */
  function ItemId(name: string): string {
    "profile-" + name
  }

  /** `on_list_view_selected` as written: an id starting "profile-" selects the id with
      every "profile-" removed. */
  function SelectedProfileAsWritten(itemId: Option<string>): (r: Option<string>)
    ensures r.Some? <==> itemId.Some? && StartsWith(itemId.value, "profile-")
  {
    var id := itemId.GetOr("");
    if StartsWith(id, "profile-") then Some(Replace(id, "profile-", "")) else None
  }

  /** Removing every "profile-" from an id that starts with one is removing it from the rest. */
  lemma ReplaceAfterPrefix(rest: string)
    ensures Replace("profile-" + rest, "profile-", "") == Replace(rest, "profile-", "")
  {
    var id := "profile-" + rest;
    assert id[0..] == id;
    assert Find(id, "profile-") == Some(0);
    assert id[|"profile-"|..] == rest;
  }

  /** "work-profile-2" holds "profile-" once, after "work-". */
  lemma InnerPrefixRemoved()
    ensures Replace("work-profile-2", "profile-", "") == "work-2"
  {
    var w, p, t := "work-", "profile-", "2";
    assert "work-profile-2" == w + p + t;
    assert Replace(w + p + t, p, "") == w + Replace(t, p, "") by {
      assert forall k :: 0 <= k < |w| ==> w[k] != p[0];
      ReplaceAfterFree(w, p, t);
    }
    assert Replace(t, p, "") == t by {
      assert !Contains(t, p);
      ReplaceAbsent(t, p, "");
    }
    assert w + t == "work-2";
  }

  /** When no character of `w` can start `p`, the first `p` in `w + p + t` is the one after
      `w`, and removing the occurrences leaves `w` and what removing them does to `t`. */
  lemma ReplaceAfterFree(w: string, p: string, t: string)
    requires |p| > 0 && forall k :: 0 <= k < |w| ==> w[k] != p[0]
    ensures Replace(w + p + t, p, "") == w + Replace(t, p, "")
  {
    var s := w + p + t;
    FirstAfterFree(w, p, t);
    assert s[..|w|] == w && s[|w| + |p|..] == t;
    assert Replace(s, p, "") == s[..|w|] + "" + Replace(s[|w| + |p|..], p, "");
    assert w + "" == w;
  }

  lemma FirstAfterFree(w: string, p: string, t: string)
    requires |p| > 0 && forall k :: 0 <= k < |w| ==> w[k] != p[0]
    ensures Find(w + p + t, p) == Some(|w|)
  {
    var s := w + p + t;
    assert s[|w|..] == p + t;
    assert p <= s[|w|..];
    forall k | 0 <= k < |w|
      ensures !(p <= s[k..])
    {
      assert s[k..][0] == w[k];
    }
  }


  /** A profile whose name contains "profile-" selects another name. */
  lemma SelectionLosesInnerPrefix()
    ensures SelectedProfileAsWritten(Some(ItemId("work-profile-2"))) == Some("work-2")
  {
    ReplaceAfterPrefix("work-profile-2");
    InnerPrefixRemoved();
  }

  /** The intended selection: the item id without its "profile-" prefix. */
  function SelectedProfile(itemId: Option<string>): (r: Option<string>)
    ensures r.Some? <==> itemId.Some? && StartsWith(itemId.value, "profile-")
  {
    var id := itemId.GetOr("");
    if StartsWith(id, "profile-") then Some(id[|"profile-"|..]) else None
  }

  /** Selecting a profile's list item selects that profile, whatever its name. */
  lemma SelectionRoundTrip(name: string)
    ensures SelectedProfile(Some(ItemId(name))) == Some(name)
  {
    assert ItemId(name)[8..] == name;
  }

  /** The two agree on names without "profile-" in them. */
  lemma SelectionAgrees(name: string)
    requires !Contains(name, "profile-")
    ensures SelectedProfileAsWritten(Some(ItemId(name))) == SelectedProfile(Some(ItemId(name)))
  {
    ReplaceAfterPrefix(name);
    ReplaceAbsent(name, "profile-", "");
    assert ItemId(name)[|"profile-"|..] == name;
  }
}
