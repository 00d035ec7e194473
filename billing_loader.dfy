/** Building a billing manager from an already-parsed pricing configuration, and the
    built-in default price list. */
module BillingLoader {
  import opened Wrappers
  import opened Dicts
  import opened JsonValues
  import opened BillingModels
  import opened Billing
  import Strings

  /** What a Python `for` loop sees when it iterates a decoded value: a list's items, a
      string's characters, a mapping's keys; other values are not iterable. */
  function Iterate(j: Json): (r: Result<seq<Json>, PyError>)
    ensures j.JArray? ==> r == Ok(j.items)
    ensures j.JString? ==> r.Ok? && |r.value| == |j.s|
    ensures j.JObject? ==> r.Ok? && |r.value| == |j.fields|
  {
    match j
    case JArray(items) => Ok(items)
    case JString(s) => Ok(seq(|s|, i requires 0 <= i < |s| => JString([s[i]])))
    case JObject(fields) => Ok(seq(|fields|, i requires 0 <= i < |fields| => JString(fields[i].0)))
    case _ => Err(TypeError)
  }

  /** `[PriceTier(**t) for t in items]`: the first failing item raises. */
  function ConvertTiers(items: seq<Json>): (r: Result<seq<PriceTier>, PyError>)
    ensures r.Ok? ==> |r.value| == |items|
    ensures r.Ok? <==> forall i :: 0 <= i < |items| ==> PriceTierFromJson(items[i]).Ok?
    decreases |items|
  {
    if |items| == 0 then Ok([])
    else
      var t :- PriceTierFromJson(items[0]);
      var rest :- ConvertTiers(items[1..]);
      Ok([t] + rest)
  }

  /** `[ComplexPriceTier(**t) for t in items]` */
  function ConvertComplexTiers(items: seq<Json>): (r: Result<seq<ComplexPriceTier>, PyError>)
    ensures r.Ok? ==> |r.value| == |items|
    ensures r.Ok? <==> forall i :: 0 <= i < |items| ==> ComplexPriceTierFromJson(items[i]).Ok?
    decreases |items|
  {
    if |items| == 0 then Ok([])
    else
      var t :- ComplexPriceTierFromJson(items[0]);
      var rest :- ConvertComplexTiers(items[1..]);
      Ok([t] + rest)
  }

  /** `name in entry` for one of the three field names the loop tests before the `try`,
      on an entry that is a string (a substring test) or a list (an item test). */
  predicate NamesAField(entry: Json)
    requires entry.JString? || entry.JArray?
  {
    if entry.JString? then
      Strings.Contains(entry.s, "tiers") || Strings.Contains(entry.s, "complex_tiers")
      || Strings.Contains(entry.s, "pricing_type")
    else
      JString("tiers") in entry.items || JString("complex_tiers") in entry.items
      || JString("pricing_type") in entry.items
  }

  /** One entry under `models`. `Err` aborts the whole load; `Ok(None)` is an entry whose
      `ModelPricing` construction failed inside the `try` and is skipped. The conversions of
      tiers, complex tiers and `pricing_type` run outside the `try`. An entry that is not a
      mapping aborts too: null, a number or a boolean fails the first `in` test, and a
      string or list that names a field fails when that field is subscripted, both with
      TypeError; any other string or list reaches the `try`, where `ModelPricing(**entry)`
      raises TypeError, and the handler's `entry.get('model', 'unknown')` then raises
      AttributeError, which escapes. */
  function ConvertEntry(entry: Json): Result<Option<ModelPricing>, PyError> {
    if entry.JString? || entry.JArray? then
      if NamesAField(entry) then Err(TypeError) else Err(AttributeError)
    else if !entry.JObject? then Err(TypeError)
    else
      var d := entry.fields;
      var tiers :-
        if HasKey(d, "tiers") then
          var items :- Iterate(Lookup(d, "tiers").value);
          ConvertTiers(items)
        else Ok([]);
      var complexTiers :-
        if HasKey(d, "complex_tiers") then
          var items :- Iterate(Lookup(d, "complex_tiers").value);
          ConvertComplexTiers(items)
        else Ok([]);
      var pricingType :- PricingTypeField(d);
      match ModelPricingFromFields(d, pricingType, tiers, complexTiers)
      case Ok(p) => Ok(Some(p))
      case Err(_) => Ok(None)
  }

  /** The pricing type of an entry: converted with `PricingType(...)` when present (a value
      outside the four names raises), the FIXED default of the record otherwise. */
  function PricingTypeField(d: seq<(string, Json)>): (r: Result<PricingType, PyError>)
    ensures !HasKey(d, "pricing_type") ==> r == Ok(Fixed)
  {
    if HasKey(d, "pricing_type") then
      match Lookup(d, "pricing_type").value
      case JString(s) => if ParsePricingType(s).Some? then Ok(ParsePricingType(s).value) else Err(ValueError)
      case _ => Err(ValueError)
    else Ok(Fixed)
  }

  /** The policies the entries yield, in order, or the error of the first aborting entry. */
  function LoadEntries(entries: seq<Json>): Result<seq<ModelPricing>, PyError>
    decreases |entries|
  {
    if |entries| == 0 then Ok([])
    else LoadStep(LoadEntries(entries[..|entries| - 1]), ConvertEntry(entries[|entries| - 1]))
  }

  /** One more entry of the loop: an earlier abort stands, an aborting entry aborts, a
      skipped entry adds nothing and a converted one is appended. */
  function LoadStep(before: Result<seq<ModelPricing>, PyError>, last: Result<Option<ModelPricing>, PyError>)
    : Result<seq<ModelPricing>, PyError>
  {
    var loaded :- before;
    var entry :- last;
    Ok(loaded + if entry.Some? then [entry.value] else [])
  }

  lemma LoadEntriesSnoc(entries: seq<Json>, e: Json)
    ensures LoadEntries(entries + [e]) == LoadStep(LoadEntries(entries), ConvertEntry(e))
  {
    assert (entries + [e])[..|entries|] == entries;
  }

  /** The registry `load_pricing_config` builds. `None` is a path that does not exist: an
      empty registry and no error. A top-level value that is not a mapping fails at `.get`. */
  function LoadedRegistry(config: Option<Json>): Result<seq<(string, ModelPricing)>, PyError> {
    match config
    case None => Ok([])
    case Some(c) =>
      if !c.JObject? then Err(AttributeError)
      else
        var entries :- Iterate(GetOr(c, "models", JArray([])));
        var pricings :- LoadEntries(entries);
        Ok(RegisterAll([], pricings))
  }

  lemma {:induction false} RegisterAllSnoc(registry: seq<(string, ModelPricing)>, ps: seq<ModelPricing>, p: ModelPricing)
    ensures RegisterAll(registry, ps + [p]) == Put(RegisterAll(registry, ps), PricingKey(p.vendor, p.model), p)
    decreases |ps|
  {
    if |ps| == 0 {
      assert [p][1..] == [];
    } else {
      assert (ps + [p])[1..] == ps[1..] + [p];
      RegisterAllSnoc(Put(registry, PricingKey(ps[0].vendor, ps[0].model), ps[0]), ps[1..], p);
    }
  }

  /** `load_pricing_config`, over the decoded file (`None` when the path does not exist). */
  method LoadPricingConfig(config: Option<Json>) returns (r: Result<BillingManager, PyError>)
    ensures r.Ok? <==> LoadedRegistry(config).Ok?
    ensures r.Ok? ==> fresh(r.value) && r.value.Valid() && r.value.records == []
    ensures r.Ok? ==> r.value.registry == LoadedRegistry(config).value
  {
    var manager := new BillingManager();
    if config.None? {
      return Ok(manager);
    }
    var c := config.value;
    if !c.JObject? {
      return Err(AttributeError);
    }
    var models := Iterate(GetOr(c, "models", JArray([])));
    if models.Err? {
      return Err(models.error);
    }
    var entries := models.value;
    ghost var loaded: seq<ModelPricing> := [];
    var i := 0;
    while i < |entries|
      invariant 0 <= i <= |entries|
      invariant LoadEntries(entries[..i]) == Ok(loaded)
      invariant manager.Valid() && manager.records == []
      invariant manager.registry == RegisterAll([], loaded)
      invariant fresh(manager)
    {
      assert entries[..i + 1][..i] == entries[..i];
      var converted := ConvertEntry(entries[i]);
      if converted.Err? {
        assert LoadEntries(entries[..i + 1]).Err?;
        LoadEntriesAbortsAt(entries, i + 1);
        return Err(converted.error);
      }
      if converted.value.Some? {
        var pricing := converted.value.value;
        RegisterAllSnoc([], loaded, pricing);
        manager.RegisterPricing(pricing);
        loaded := loaded + [pricing];
      } else {
        assert loaded + [] == loaded;
      }
      assert LoadEntries(entries[..i + 1]) == Ok(loaded);
      i := i + 1;
    }
    assert entries[..i] == entries;
    return Ok(manager);
  }

  /** Once a prefix fails, every longer prefix fails. */
  lemma {:induction false} LoadEntriesAbortsAt(entries: seq<Json>, i: nat)
    requires i <= |entries| && LoadEntries(entries[..i]).Err?
    ensures LoadEntries(entries).Err?
    decreases |entries| - i
  {
    if i < |entries| {
      var next := entries[..i + 1];
      assert next[..i] == entries[..i];
      assert LoadEntries(next).Err?;
      LoadEntriesAbortsAt(entries, i + 1);
    } else {
      assert entries[..i] == entries;
    }
  }

  /** A skipped entry leaves the loop's result as it was. */
  lemma LoadStepSkip(before: Result<seq<ModelPricing>, PyError>)
    ensures LoadStep(before, Ok(None)) == before
  {
    if before.Ok? {
      assert before.value + [] == before.value;
    }
  }

  lemma SplitLast(front: seq<Json>, post: seq<Json>)
    requires |post| > 0
    ensures front + post == (front + post[..|post| - 1]) + [post[|post| - 1]]
  {
  }

  /** An entry that fails inside the `try` changes nothing: the load is as if it were absent,
      and the entries after it still load. */
  lemma {:induction false} SkippedEntry(pre: seq<Json>, bad: Json, post: seq<Json>)
    requires ConvertEntry(bad) == Ok(None)
    ensures LoadEntries(pre + [bad] + post) == LoadEntries(pre + post)
    decreases |post|
  {
    if |post| == 0 {
      assert pre + [bad] + post == pre + [bad];
      assert pre + post == pre;
      LoadEntriesSnoc(pre, bad);
      LoadStepSkip(LoadEntries(pre));
    } else {
      var init := post[..|post| - 1];
      var last := post[|post| - 1];
      SkippedEntry(pre, bad, init);
      SplitLast(pre + [bad], post);
      SplitLast(pre, post);
      LoadEntriesSnoc(pre + [bad] + init, last);
      LoadEntriesSnoc(pre + init, last);
    }
  }

  /** An entry that fails outside the `try` aborts the whole load, whatever follows it. */
  lemma AbortingEntry(pre: seq<Json>, bad: Json, post: seq<Json>)
    requires ConvertEntry(bad).Err?
    ensures LoadEntries(pre + [bad] + post).Err?
  {
    var all := pre + [bad] + post;
    var k := |pre| + 1;
    assert all[..k] == pre + [bad];
    assert (pre + [bad])[..|pre|] == pre;
    LoadEntriesAbortsAt(all, k);
  }

  /** A later entry for the same `vendor:model` overwrites an earlier one. */
  lemma LoadedKeyIsLastEntry(config: Option<Json>, key: string)
    requires config.Some? && config.value.JObject?
    requires LoadedRegistry(config).Ok?
    ensures var c := config.value;
      var pricings := LoadEntries(Iterate(GetOr(c, "models", JArray([]))).value).value;
      var w := WithKey(pricings, key);
      Lookup(LoadedRegistry(config).value, key) == if |w| > 0 then Some(w[|w| - 1]) else None
  {
    var c := config.value;
    var pricings := LoadEntries(Iterate(GetOr(c, "models", JArray([]))).value).value;
    RegisterAllLookup([], pricings, key);
  }

  /** A mapping without `pricing_type` is a FIXED policy. */
  lemma DefaultPricingType(entry: Json)
    requires entry.JObject? && !HasKey(entry.fields, "pricing_type")
    requires ConvertEntry(entry).Ok? && ConvertEntry(entry).value.Some?
    ensures ConvertEntry(entry).value.value.pricingType == Fixed
  {
  }

  /** A tier that is not a mapping, or a pricing type outside the four values, aborts the
      load even before the vendor and model are looked at. */
  lemma MalformedEntriesAbort()
    ensures ConvertEntry(JObject([("tiers", JArray([JInt(3)]))])).Err?
    ensures ConvertEntry(JObject([("pricing_type", JString("tiered-complex"))])).Err?
  {
    var d := [("pricing_type", JString("tiered-complex"))];
    assert Lookup(d, "tiers") == None;
    assert Lookup(d, "complex_tiers") == None;
  }

  /** An entry that is not a mapping always aborts the load, with AttributeError exactly
      when it is a string or list that names none of the three fields. */
  lemma NonMappingEntry(entry: Json)
    requires !entry.JObject?
    ensures ConvertEntry(entry).Err?
    ensures ConvertEntry(entry) == Err(AttributeError)
        <==> (entry.JString? || entry.JArray?) && !NamesAField(entry)
    ensures ConvertEntry(entry) != Err(AttributeError) ==> ConvertEntry(entry) == Err(TypeError)
  {
  }

  /** A bare model name as an entry escapes the handler with AttributeError; a list naming
      `pricing_type` fails at the subscript with TypeError. */
  lemma NonMappingExamples()
    ensures ConvertEntry(JString("gpt-4o")) == Err(AttributeError)
    ensures ConvertEntry(JArray([JString("pricing_type")])) == Err(TypeError)
    ensures ConvertEntry(JNull) == Err(TypeError)
  {
    var s := "gpt-4o";
    forall k | 0 <= k <= |s| ensures !("tiers" <= s[k..]) && !("complex_tiers" <= s[k..]) && !("pricing_type" <= s[k..]) {
      assert k < |s| ==> s[k..][0] == s[k];
    }
  }

  /** The built-in price list. */
  const DefaultPricings: seq<ModelPricing> := [
    ModelPricing("OpenAI", "gpt-4o", None, Fixed, 2.50, 10.00, [], [], 0, 0, "USD", None, None),
    ModelPricing("OpenAI", "gpt-4o-mini", None, Fixed, 0.15, 0.60, [], [], 0, 0, "USD", None, None),
    ModelPricing("DeepSeek", "deepseek-chat", None, Fixed, 0.14, 0.28, [], [], 0, 0, "USD", None, None),
    ModelPricing("Google", "gemini-2.0-flash", None, Fixed, 0.075, 0.30, [], [], 0, 0, "USD", None, None),
    ModelPricing("Anthropic", "claude-sonnet-4-20250514", None, Fixed, 3.00, 15.00, [], [], 0, 0, "USD", None, None)
  ]

  /** `create_default_billing_manager` */
  method CreateDefaultBillingManager() returns (m: BillingManager)
    ensures fresh(m) && m.Valid() && m.records == []
    ensures m.registry == RegisterAll([], DefaultPricings)
  {
    m := new BillingManager();
    var i := 0;
    while i < |DefaultPricings|
      invariant 0 <= i <= |DefaultPricings|
      invariant fresh(m) && m.Valid() && m.records == []
      invariant m.registry == RegisterAll([], DefaultPricings[..i])
    {
      RegisterAllSnoc([], DefaultPricings[..i], DefaultPricings[i]);
      assert DefaultPricings[..i + 1] == DefaultPricings[..i] + [DefaultPricings[i]];
      m.RegisterPricing(DefaultPricings[i]);
      i := i + 1;
    }
    assert DefaultPricings[..i] == DefaultPricings;
  }

  /** Each policy paired with its registry key. */
  function Entries(ps: seq<ModelPricing>): (r: seq<(string, ModelPricing)>)
    ensures |r| == |ps|
    ensures forall i :: 0 <= i < |ps| ==> r[i] == (PricingKey(ps[i].vendor, ps[i].model), ps[i])
  {
    seq(|ps|, i requires 0 <= i < |ps| => (PricingKey(ps[i].vendor, ps[i].model), ps[i]))
  }

  /** Registering policies whose keys are all new appends them in order. */
  lemma {:induction false} RegisterAllFresh(registry: seq<(string, ModelPricing)>, ps: seq<ModelPricing>)
    requires DistinctKeys(registry + Entries(ps))
    ensures RegisterAll(registry, ps) == registry + Entries(ps)
    decreases |ps|
  {
    if |ps| > 0 {
      var all := registry + Entries(ps);
      var k := PricingKey(ps[0].vendor, ps[0].model);
      assert !HasKey(registry, k) by {
        forall i | 0 <= i < |registry| ensures registry[i].0 != k {
          assert all[i] == registry[i] && all[|registry|] == (k, ps[0]);
        }
      }
      PutNew(registry, k, ps[0]);
      var reg' := registry + [(k, ps[0])];
      assert reg' + Entries(ps[1..]) == all;
      RegisterAllFresh(reg', ps[1..]);
    }
  }

  lemma DefaultKeysDistinct()
    ensures DistinctKeys(Entries(DefaultPricings))
  {
    var es := Entries(DefaultPricings);
    var lengths := [13, 18, 22, 23, 34];
    forall i | 0 <= i < 5 ensures |es[i].0| == lengths[i] {
    }
    forall i, j | 0 <= i < j < 5 ensures es[i].0 != es[j].0 {
      assert lengths[i] != lengths[j];
    }
  }

  /** The default registry holds exactly the five built-in FIXED policies, in order, each
      under its own `vendor:model` key; OpenAI:gpt-4o is billed 2.50 per million input and
      10.00 per million output tokens. */
  lemma DefaultRegistryContents()
    ensures var ps := DefaultPricings; var reg := RegisterAll([], ps);
      reg == Entries(ps) && |reg| == 5
      && (forall i :: 0 <= i < 5 ==> reg[i].1.pricingType == Fixed)
      && Lookup(reg, PricingKey("OpenAI", "gpt-4o")) == Some(ps[0])
      && ps[0].inputPricePerMillion == 2.50 && ps[0].outputPricePerMillion == 10.00
  {
    var ps := DefaultPricings;
    DefaultsRegistered();
    var key := PricingKey("OpenAI", "gpt-4o");
    assert Entries(ps)[0] == (key, ps[0]);
    LookupAt(Entries(ps), 0, key);
    forall i | 0 <= i < 5
      ensures Entries(ps)[i].1.pricingType == Fixed
    {
      assert Entries(ps)[i].1 == ps[i];
      assert i == 0 || i == 1 || i == 2 || i == 3 || i == 4;
    }
  }

  lemma DefaultsRegistered()
    ensures RegisterAll([], DefaultPricings) == Entries(DefaultPricings)
  {
    DefaultKeysDistinct();
    assert [] + Entries(DefaultPricings) == Entries(DefaultPricings);
    RegisterAllFresh([], DefaultPricings);
  }
}
