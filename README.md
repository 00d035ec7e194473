# Android Phone Agent — a verified model of its core

Android Phone Agent drives an Android phone over ADB on behalf of a vision-language
model (VLM). It works in a loop. It captures the screen and asks the model for the next action
(`do(action="Tap", element=[x, y])`, `finish(message=…)`, …). Then it executes that action
as `adb shell` commands and feeds the outcome back to the model, until the model finishes or a
step budget runs out. Each model call can be priced by a billing ledger. Model access is
described by named profiles, each speaking one of three wire protocols (OpenAI-compatible,
Anthropic, Gemini).

This project models that core in Dafny. It has one module per source file:

| module | models |
|---|---|
| `BillingModels` (`billing_models.dfy`) | pricing kinds, price tiers, pricing policies, usage records and summaries |
| `Billing` (`billing.dfy`) | the four cost rules and the `BillingManager` ledger (a class) |
| `BillingLoader` (`billing_loader.dfy`) | building a ledger from a decoded pricing file, and the built-in price list |
| `Actions` (`actions.dfy`) | action kinds, results, coordinate scaling, app-name keyword extraction |
| `ActionHandling` (`action_handler.dfy`) | the action dispatcher and every handler, as the ADB commands it issues (a class) |
| `Adb` (`adb_device.dfy`) | one device: the shell commands each operation sends and how it reads their output (a class) |
| `DeviceRegistry` (`device_manager.dfy`) | `adb devices` parsing and the registry of connected devices (a class) |
| `ProvidersBase`, `OpenAIChat`, `AnthropicChat`, `GeminiChat`, `ClientFactory` | the message format shared by the clients, each client's request and response translation, and client selection |
| `PromptAssembly` (`prompts.dfy`) | the system-prompt builder (a class) |
| `Profiles` (`profile.dfy`) | model profiles, their validation, `${NAME}` expansion and the profile store (a class) |
| `Ocr` (`ocr.dfy`) | the OCR engine: the keyboard-notice test on the bottom band of a screenshot (a class) |
| `SettingsScreen` (`settings_screen.dfy`) | the settings screen's `.env` line merge, its profile form and its profile list selection |
| `AgentCore` (`agent_core.dfy`) | `PhoneAgent`: the step, the run loop, the history and the per-step cost (a class) |

Four helper modules support the rest. `Wrappers` has `Option` and `Result`. `Strings` has
digits, splitting and searching. `JsonValues` has decoded JSON and YAML values and the Python
errors. `Dicts` has Python dictionaries as ordered association lists.

Conventions used throughout:

- Effects become state or parameters. A Python exception is an `Err(PyError)` result. The
  device is a `Device` object that logs every shell command it sends. Its replies come from a
  function of the command's position in that log and the command itself. The language model,
  the clock, the current foreground app and prompt rendering are parameters (oracles) of the
  agent.
- Money is `real`. The source's floats are approximated by exact arithmetic (see "Left out").
- Each state-changing method is proved against a pure "plan" function. The plan gives the
  commands it sends and the result it returns. Properties are proved about the plans.

## Model

| member | source | states |
|---|---|---|
| BillingModels.ParsePricingType | phone_agent/billing/models.py:10-16 | a parsed pricing kind is one whose wire value is exactly the input string |
| BillingModels.PricingTypeRoundTrip | phone_agent/billing/models.py:10-16 | parsing a kind's wire value gives that kind back |
| BillingModels.PriceTierDefaults | phone_agent/billing/models.py:19-25 | an empty tier mapping is the tier from 0, open-ended, at zero prices |
| BillingModels.ComplexPriceTierDefaults | phone_agent/billing/models.py:28-48 | an empty complex tier bounds input from 0 and nothing else, at zero prices |
| BillingModels.ModelPricingFromFields | phone_agent/billing/models.py:51-76 | a built policy keeps the given kind, tiers and complex tiers; its fields take strict JSON kinds (see Left out) |
| BillingModels.ModelPricingDefaults | phone_agent/billing/models.py:51-76 | only vendor and model given: no display name, zero prices and allowances, no tiers, USD |
| BillingModels.ModelPricingNeedsVendorAndModel | phone_agent/billing/models.py:51-76 | a missing vendor or model is a validation error |
| BillingModels.NewUsageRecord | phone_agent/billing/models.py:79-90 | a usage record's currency defaults to USD |
| BillingModels.NewSummary | phone_agent/billing/models.py:93-105 | a summary defaults to USD and no records |
| Billing.FixedCost | phone_agent/billing/manager.py:73-87 | the fixed-price total is input cost plus output cost |
| Billing.FixedCostAllowance | phone_agent/billing/manager.py:73-87 | tokens within the free allowance cost nothing; beyond it, each token costs the per-million rate |
| Billing.FixedCostMonotone | phone_agent/billing/manager.py:81-84 | with a non-negative rate, more prompt tokens never cost less |
| Billing.TakeFromTier | phone_agent/billing/manager.py:106-110 | the tokens taken by a tier are at most the remainder and the tier size, and equal one of them |
| Billing.SortByMinSorts | phone_agent/billing/manager.py:102 | the tiers are walked in ascending `min_tokens` order, as a permutation of the declared tiers |
| Billing.SortByMinAscending | phone_agent/billing/manager.py:102 | the sorted tiers ascend by `min_tokens` |
| Billing.SortByMinPermutes | phone_agent/billing/manager.py:102 | the sorted tiers are a permutation of the declared tiers |
| Billing.SortByMinKeepsSorted | phone_agent/billing/manager.py:102 | tiers declared in ascending order are walked as declared (the sort is stable) |
| Billing.ClimbIsTwoStreams | phone_agent/billing/manager.py:102-119 | the shared early stop never changes the result: the walk bills prompt and completion independently |
| Billing.StreamBounds | phone_agent/billing/manager.py:109-119 | one side never bills more tokens than it has, nor a negative number |
| Billing.StreamUnbounded | phone_agent/billing/manager.py:106-119 | once an open-ended tier is reached, every remaining token is billed there |
| Billing.TieredCost | phone_agent/billing/manager.py:89-121 | the total of the tier walk is the input cost plus the output cost |
| Billing.TieredNothingBilled | phone_agent/billing/manager.py:89-121 | no tiers, or no tokens on either side, cost nothing |
| Billing.TieredBilling | phone_agent/billing/manager.py:89-121 | each side bills between none and all of its tokens, and all of them when a tier is open-ended; the input cost does not depend on the completion count, nor the output cost on the prompt count |
| Billing.CalculateTieredCost | phone_agent/billing/manager.py:89-121 | the loop computes the specified tier walk over the sorted tiers, and its total is input plus output |
| Billing.FirstMatch | phone_agent/billing/manager.py:145-161 | finds the first complex tier whose input and output ranges contain the counts, or reports that none does |
| Billing.ComplexTierChoice | phone_agent/billing/manager.py:144-170 | the full counts are billed at the first matching tier's rates, or at the last tier's when none matches |
| Billing.ComplexWithoutTiersIsTiered | phone_agent/billing/manager.py:138-142 | with no complex tiers the simple ladder applies, and an empty ladder costs nothing |
| Billing.CalculateComplexTieredCost | phone_agent/billing/manager.py:123-170 | the loop computes the specified complex-tier cost |
| Billing.FirstMatchIs | phone_agent/billing/manager.py:159-161 | the loop's `break` at a matching tier preceded by no match stops at the first match |
| Billing.PolicyCost | phone_agent/billing/manager.py:40-71 | an unregistered or free model costs nothing, and for every policy kind the total is the input cost plus the output cost |
| Billing.SummarizeAppend | phone_agent/billing/manager.py:195-198 | one more record adds one step and grows every summary total by that record's amounts |
| Billing.RegisterAllLookup | phone_agent/billing/manager.py:25-28 | after registering several policies, a key holds the last one registered under it, or its earlier value |
| Billing.PutWellKeyed | phone_agent/billing/manager.py:25-28 | registering keeps every entry under its own `vendor:model` key, with no duplicates |
| Billing.RegisterAllWellKeyed | phone_agent/billing/manager.py:25-28 | registering many policies keeps the registry well keyed |
| Billing.BillingManager.constructor | phone_agent/billing/manager.py:18-23 | a new ledger has no policies, no records and zero totals |
| Billing.BillingManager.RegisterPricing | phone_agent/billing/manager.py:25-28 | the policy is stored under `vendor:model`, replacing any earlier one; the ledger is unchanged |
| Billing.BillingManager.GetPricing | phone_agent/billing/manager.py:35-38 | a policy is found exactly when its key is registered, and it is the one stored under that key |
| Billing.BillingManager.CalculateCost | phone_agent/billing/manager.py:40-71 | the cost is the registered policy's rule: zero when unregistered or free, else the fixed, tiered or complex rule |
| Billing.BillingManager.RecordUsage | phone_agent/billing/manager.py:172-200 | appends one record priced by the policy, grows the token and cost totals by exactly its amounts, and leaves the registry alone |
| Billing.BillingManager.GetTaskSummary | phone_agent/billing/manager.py:202-230 | the summary read from the running totals agrees with the summary of the records: "N/A" and zeros when empty |
| Billing.BillingManager.Reset | phone_agent/billing/manager.py:232-237 | empties the ledger and zeroes the totals, keeping the registry |
| Billing.FixedExample | phone_agent/billing/manager.py:73-87 | 1.5M prompt and 1M completion tokens at gpt-4o's fixed prices cost 3.75 + 10.00 |
| Billing.TieredExample | phone_agent/billing/manager.py:102-121 | a ladder declared out of order is walked in `min_tokens` order |
| BillingLoader.Iterate | phone_agent/billing/loader.py:25 | iterating a list yields its items; a string yields its characters and a mapping its keys |
| BillingLoader.ConvertTiers | phone_agent/billing/loader.py:27-30 | the conversion succeeds exactly when every tier converts, and keeps their number |
| BillingLoader.ConvertComplexTiers | phone_agent/billing/loader.py:33-36 | the conversion succeeds exactly when every complex tier converts, and keeps their number |
| BillingLoader.PricingTypeField | phone_agent/billing/loader.py:39-40 | an entry without `pricing_type` is FIXED |
| BillingLoader.LoadEntriesSnoc | phone_agent/billing/loader.py:25-46 | the load over entries is the step-by-step fold of the per-entry outcome |
| BillingLoader.RegisterAllSnoc | phone_agent/billing/loader.py:44 | registering one more policy is a `Put` under its key |
| BillingLoader.LoadPricingConfig | phone_agent/billing/loader.py:13-48 | succeeds exactly when the specified load does, giving a fresh ledger with no records and the specified registry |
| BillingLoader.LoadEntriesAbortsAt | phone_agent/billing/loader.py:25-40 | once an entry aborts the load, no later entry can rescue it |
| BillingLoader.SkippedEntry | phone_agent/billing/loader.py:42-46 | an entry rejected inside the `try` leaves the load as if it were absent |
| BillingLoader.AbortingEntry | phone_agent/billing/loader.py:27-40 | a tier or pricing-type conversion failure aborts the whole load |
| BillingLoader.LoadedKeyIsLastEntry | phone_agent/billing/loader.py:25-46 | a later entry for the same `vendor:model` overwrites an earlier one |
| BillingLoader.DefaultPricingType | phone_agent/billing/loader.py:39-43 | a loaded entry without a pricing type is FIXED |
| BillingLoader.NonMappingEntry | phone_agent/billing/loader.py:25-46 | an entry that is not a mapping aborts the load: with AttributeError exactly when it is a string or list naming none of `tiers`, `complex_tiers`, `pricing_type` (it reaches the handler's `.get`), with TypeError otherwise |
| BillingLoader.NonMappingExamples | phone_agent/billing/loader.py:25-46 | the entry "gpt-4o" escapes with AttributeError; a list holding "pricing_type", and null, fail with TypeError |
| BillingLoader.MalformedEntriesAbort | phone_agent/billing/loader.py:27-40 | a non-mapping tier, or a pricing type outside the four values, aborts the load |
| BillingLoader.CreateDefaultBillingManager | phone_agent/billing/loader.py:51-96 | a fresh ledger holding the built-in price list |
| BillingLoader.Entries | phone_agent/billing/loader.py:93-94 | pairs each policy with its registry key |
| BillingLoader.RegisterAllFresh | phone_agent/billing/loader.py:93-94 | registering policies with new, distinct keys appends them in order |
| BillingLoader.DefaultKeysDistinct | phone_agent/billing/loader.py:55-91 | the five built-in policies have distinct keys |
| BillingLoader.DefaultRegistryContents | phone_agent/billing/loader.py:55-94 | the default registry holds exactly the five built-in FIXED policies, in order, with their prices |
| Actions.ParseActionType | phone_agent/agent/actions.py:14-30 | a recognised kind is exactly the one whose value is the given string |
| Actions.ActionTypeRoundTrip | phone_agent/agent/actions.py:14-30 | every kind is recognised from its own value (parse inverts the value table) |
| Actions.ActionTypeCaseSensitive | phone_agent/agent/actions.py:14-30 | kind names match case-sensitively ("Finish", "LongPress" are unknown) |
| Actions.ParseDirective | phone_agent/agent/actions.py:74-92 | malformed JSON is rejected with its first 100 characters; a rejection never succeeds or finishes; a dispatch names a known kind |
| Actions.DispatchKnown | phone_agent/agent/actions.py:83-93 | a known `action` dispatches with `params`, or an empty dict when absent |
| Actions.RejectMissingAction | phone_agent/agent/actions.py:79-81 | a missing or empty `action` is rejected before any handler |
| Actions.RejectUnknownAction | phone_agent/agent/actions.py:83-86 | an unknown `action` is rejected with its text |
| Actions.Item | phone_agent/agent/actions.py:106-107 | indexing a list yields the item at that position |
| Actions.Scale | phone_agent/agent/actions.py:106-107 | the relative-to-pixel conversion succeeds exactly for numbers |
| Actions.CornersArePoints | phone_agent/agent/actions.py:131-137 | the four-number swipe form converts like two separate points |
| Actions.ScaleInt | phone_agent/agent/actions.py:106-107 | for non-negative grid values the pixel is the floor of `e * size / 1000` |
| Actions.ScaleBounds | phone_agent/agent/actions.py:95-108 | points of the 0–1000 grid land on the screen; 0 is the first pixel and 1000 the size |
| Actions.CentreCoords | phone_agent/agent/actions.py:112 | the default element `[500, 500]` is the screen centre |
| Actions.CoordsOfPair | phone_agent/agent/actions.py:95-108 | a two-integer element converts coordinate by coordinate |
| Actions.CoordsShort | phone_agent/agent/actions.py:105-107 | an element with fewer than two entries raises |
| Actions.WaitSeconds | phone_agent/agent/actions.py:380-382 | the clamp succeeds exactly for numbers and yields a value in [1, 30] |
| Actions.WaitClamp | phone_agent/agent/actions.py:382 | the clamp keeps values in (1, 30) and saturates outside |
| Actions.WaitDefault | phone_agent/agent/actions.py:380 | the default wait is five seconds |
| Actions.WaitIdempotent | phone_agent/agent/actions.py:382 | clamping twice is clamping once |
| Actions.KeyCode | phone_agent/agent/actions.py:349-358 | a found key code is the table's entry for the lower-cased key name |
| Actions.KeyCodeOfTable | phone_agent/agent/actions.py:349-358 | a name that lower-cases to a table key gets exactly that key's code, and a name that lower-cases to no key gets none |
| Actions.KeyTableDistinct | phone_agent/agent/actions.py:349-356 | no key name appears twice in the key table |
| Actions.KeyCodeUnknown | phone_agent/agent/actions.py:349-360 | "back" is not in the key table |
| Actions.KeyCodeIgnoresCase | phone_agent/agent/actions.py:358 | names that agree after lower-casing get the same code |
| Actions.AppPackage | phone_agent/agent/actions.py:243-282 | every statically known app name maps to a non-empty package |
| Actions.AppPackageAliases | phone_agent/agent/actions.py:244-263 | "哔哩哔哩" and "B站" share a package; "微信" is `com.tencent.mm` |
| Actions.KeywordsUpTo | phone_agent/agent/actions.py:317-335 | the keyword list starts with the app name itself |
| Actions.KeywordsIncludeHints | phone_agent/agent/actions.py:333-335 | every keyword of a hint whose key occurs in the name is searched for |
| Actions.KeywordsOnlyHints | phone_agent/agent/actions.py:317-335 | each keyword is the name or belongs to a hint whose key occurs in it |
| Actions.KeywordsPlain | phone_agent/agent/actions.py:315-340 | a name containing no hint key is searched for by itself |
| Actions.Present | phone_agent/agent/actions.py:295-299 | the package list is no longer than the listing |
| Actions.ParsedPackages | phone_agent/agent/actions.py:296-298 | each listed line is parsed on its own |
| Actions.PresentSnoc | phone_agent/agent/actions.py:296-299 | one more listed line appends its package, if it has one |
| Actions.PackageLineRoundTrip | phone_agent/agent/actions.py:297-298 | a `package:` line gives back the package printed after the prefix |
| Actions.FirstPackage | phone_agent/agent/actions.py:305-311 | the result is a package that matches a keyword case-insensitively and is preceded by none; None when none matches |
| Actions.FirstPackageIgnoresCase | phone_agent/agent/actions.py:306-308 | the search depends on the keywords only through their lower-cased forms |
| Actions.ExtractKeywords | phone_agent/agent/actions.py:315-340 | the loop builds the specified keyword list |
| Actions.ParsePackages | phone_agent/agent/actions.py:295-299 | the loop builds the specified package list |
| Actions.CollectPackages | phone_agent/agent/actions.py:295-299 | the loop over the output lines keeps, in order, the stripped rest of every line that starts with "package:" |
| Actions.FirstPackageStep | phone_agent/agent/actions.py:305-309 | the first match from position i is the i-th package or lies after it |
| Actions.MatchesAny | phone_agent/agent/actions.py:307-309 | the inner loop answers whether some lower-cased keyword occurs in the package |
| Actions.MatchPackage | phone_agent/agent/actions.py:305-311 | the nested loops return the specified first match |
| ActionHandling.Repeat | phone_agent/agent/actions.py:210-211 | k copies of one command |
| ActionHandling.RepeatSnoc | phone_agent/agent/actions.py:210-211 | one more loop round appends one more deletion |
| ActionHandling.InputSteps | phone_agent/agent/actions.py:177-181 | typing starts with the ADB-keyboard broadcast and sends at most one fallback; a non-string text sends nothing and fails |
| ActionHandling.InputFallback | phone_agent/agent/actions.py:177-184 | the plain `input text` fallback is sent only when the broadcast fails, and then it alone decides success |
| ActionHandling.TapPlan | phone_agent/agent/actions.py:110-124 | a tap never asks to finish the task |
| ActionHandling.TapSteps | phone_agent/agent/actions.py:116-124 | a tap or long press at known coordinates never asks to finish |
| ActionHandling.DirectionOf | phone_agent/agent/actions.py:143-150 | a direction is recognised exactly when it is one of the four names, compared exactly |
| ActionHandling.DirectionPlan | phone_agent/agent/actions.py:141-155 | a directional swipe never asks to finish |
| ActionHandling.DirectionPlanSwipes | phone_agent/agent/actions.py:143-153 | a recognised direction sends one swipe along its path once the screen size is known |
| ActionHandling.SwipePlan | phone_agent/agent/actions.py:126-155 | a swipe never asks to finish |
| ActionHandling.DragPlan | phone_agent/agent/actions.py:157-168 | a drag never asks to finish |
| ActionHandling.TypePlan | phone_agent/agent/actions.py:170-184 | typing never asks to finish |
| ActionHandling.TapAndTypePlan | phone_agent/agent/actions.py:186-217 | tap-and-type never asks to finish |
| ActionHandling.TapAndTypeAt | phone_agent/agent/actions.py:195-217 | tap-and-type at a converted point never asks to finish |
| ActionHandling.TapFillSteps | phone_agent/agent/actions.py:197-217 | the field is tapped first; a failed tap stops there with "点击输入框失败" |
| ActionHandling.FillSteps | phone_agent/agent/actions.py:204-217 | filling a tapped field never asks to finish |
| ActionHandling.FillReport | phone_agent/agent/actions.py:214-217 | tap-and-type succeeds exactly when the text was sent |
| ActionHandling.FindPackageSteps | phone_agent/agent/actions.py:240-313 | a name in the static table is answered from it without asking the device; otherwise at most one package listing is sent |
| ActionHandling.LaunchWith | phone_agent/agent/actions.py:231-238 | a launch never asks to finish |
| ActionHandling.LaunchReport | phone_agent/agent/actions.py:234-238 | the launch result succeeds exactly when the launch did |
| ActionHandling.LaunchPlan | phone_agent/agent/actions.py:219-238 | a launch never asks to finish |
| ActionHandling.AfterLookup | phone_agent/agent/actions.py:227-238 | a launch after a lookup never asks to finish |
| ActionHandling.FoundWithoutListing | phone_agent/agent/actions.py:225-238 | a package found without a device listing is launched exactly as a given package would be |
| ActionHandling.KeyPressPlan | phone_agent/agent/actions.py:342-364 | a key press never asks to finish |
| ActionHandling.KeyPressNamed | phone_agent/agent/actions.py:358-364 | a key press by name never asks to finish |
| ActionHandling.KeyPlan | phone_agent/agent/actions.py:366-376 | back and home never ask to finish |
| ActionHandling.WaitResult | phone_agent/agent/actions.py:378-385 | waiting never asks to finish |
| ActionHandling.LongPressPlan | phone_agent/agent/actions.py:387-395 | a long press never asks to finish |
| ActionHandling.DoubleTapPlan | phone_agent/agent/actions.py:397-404 | a double tap never asks to finish |
| ActionHandling.ExecutePlan | phone_agent/agent/actions.py:64-93 | malformed or rejected directives send nothing and keep the size cache; their result is the rejection |
| ActionHandling.HandlePlan | phone_agent/agent/actions.py:110-414 | a handler asks to finish exactly when the kind is `finish` or `pause` and its parameters are a dict; wait, finish and pause send no device command and keep the size cache; parameters that are not a dict make every handler except back and home raise AttributeError before sending anything |
| ActionHandling.TapCentre | phone_agent/agent/actions.py:110-124 | a tap without an element taps the centre of the cached screen and reports that point |
| ActionHandling.TapReadsSizeFirst | phone_agent/agent/actions.py:105-113 | with no cached size the screen size is queried first and then cached |
| ActionHandling.SwipeDefaultsUp | phone_agent/agent/actions.py:129-144 | a swipe without an element or direction swipes up |
| ActionHandling.SwipeUnknownDirection | phone_agent/agent/actions.py:141-155 | an unknown direction fails with "滑动失败" without touching the device |
| ActionHandling.TypeNeedsText | phone_agent/agent/actions.py:172-174 | Type and TapAndType without text fail before touching the device |
| ActionHandling.TapAndTypeClears | phone_agent/agent/actions.py:204-215 | with `clear`, the end key and fifty deletions go between the tap and the text |
| ActionHandling.TapAndTypeClearsCommands | phone_agent/agent/actions.py:197-214 | the commands of a clearing tap-and-type are the tap, the clearing keys and the typing, in order |
| ActionHandling.TapFillTapped | phone_agent/agent/actions.py:197-217 | after a successful tap, the rest of tap-and-type is the fill |
| ActionHandling.FillClears | phone_agent/agent/actions.py:205-214 | with `clear`, the fill is the clearing keys followed by the typing |
| ActionHandling.TapAndTypeOnCentre | phone_agent/agent/actions.py:188-195 | without an element, tap-and-type works on the centre of a known screen |
| ActionHandling.TapAndTypeStopsOnFailedTap | phone_agent/agent/actions.py:198-199 | a failed tap on the field stops before any key or text is sent |
| ActionHandling.LaunchFromTable | phone_agent/agent/actions.py:225-236 | a name in the static table is launched by its package, with no package listing, and reported as "name (package)" |
| ActionHandling.LaunchUnknownApp | phone_agent/agent/actions.py:225-229 | a name unknown to the table and the device fails with "找不到应用" after one listing |
| ActionHandling.LaunchNeedsTarget | phone_agent/agent/actions.py:231-232 | without `app_name` and `package` nothing is launched |
| ActionHandling.DoubleTapSucceeds | phone_agent/agent/actions.py:397-404 | a double tap only fails by raising |
| ActionHandling.WaitReported | phone_agent/agent/actions.py:380-385 | without `seconds` the handler reports a five-second wait |
| ActionHandling.KeyPressByName | phone_agent/agent/actions.py:344-358 | a non-empty key name is looked up by name |
| ActionHandling.KeyPressKnown | phone_agent/agent/actions.py:358-364 | a known key name, in any case, presses its code once and reports the name as given |
| ActionHandling.KeyPressUnknown | phone_agent/agent/actions.py:358-360 | an unknown key name fails without touching the device |
| ActionHandling.SwipeAlong | phone_agent/agent/actions.py:143-150 | the directional swipe sends one swipe along the direction's path, after the size is known |
| ActionHandling.ActionHandler.constructor | phone_agent/agent/actions.py:45-62 | the handler works on the given device |
| ActionHandling.ActionHandler.Execute | phone_agent/agent/actions.py:64-93 | sends exactly the specified commands, in order, updates the size cache as specified and returns the specified result |
| ActionHandling.ActionHandler.Handle | phone_agent/agent/actions.py:47-62 | dispatches to the kind's handler, with the same commands, cache and result as the handler table specifies |
| ActionHandling.ActionHandler.GetCoords | phone_agent/agent/actions.py:95-108 | queries the size only when not cached, then converts the element |
| ActionHandling.ActionHandler.HandleTap | phone_agent/agent/actions.py:110-124 | sends the tap plan's commands and returns its result |
| ActionHandling.ActionHandler.TapAt | phone_agent/agent/actions.py:116-124 | sends the tap or long press at (x, y) and keeps the size cache |
| ActionHandling.ActionHandler.HandleSwipe | phone_agent/agent/actions.py:126-155 | sends the swipe plan's commands and returns its result |
| ActionHandling.ActionHandler.SwipeToward | phone_agent/agent/actions.py:141-155 | sends the directional plan's commands and returns its result |
| ActionHandling.ActionHandler.SwipeKnown | phone_agent/agent/actions.py:143-153 | a recognised direction follows the directional plan |
| ActionHandling.ActionHandler.HandleDrag | phone_agent/agent/actions.py:157-168 | sends the drag plan's commands and returns its result |
| ActionHandling.ActionHandler.EnterText | phone_agent/agent/actions.py:177-181 | sends the broadcast and, if needed, the fallback; returns whether the text was entered |
| ActionHandling.ActionHandler.HandleType | phone_agent/agent/actions.py:170-184 | sends the typing plan's commands and returns its result |
| ActionHandling.ActionHandler.ClearField | phone_agent/agent/actions.py:205-211 | the loop sends the end key and exactly fifty deletions |
| ActionHandling.ActionHandler.HandleTapAndType | phone_agent/agent/actions.py:186-217 | sends the tap-and-type plan's commands and returns its result |
| ActionHandling.ActionHandler.TapAndTypeOn | phone_agent/agent/actions.py:195-217 | converts the element, then taps and fills as specified |
| ActionHandling.ActionHandler.TapThenFill | phone_agent/agent/actions.py:197-217 | taps the field and, only if that works, clears and types |
| ActionHandling.ActionHandler.FillField | phone_agent/agent/actions.py:204-217 | clears when asked, then types, as specified |
| ActionHandling.ActionHandler.FindPackage | phone_agent/agent/actions.py:240-313 | answers from the table, or sends one listing and returns the first matching package |
| ActionHandling.ActionHandler.HandleLaunch | phone_agent/agent/actions.py:219-238 | sends the launch plan's commands and returns its result |
| ActionHandling.ActionHandler.AfterFound | phone_agent/agent/actions.py:227-238 | after the lookup, follows the specified rest of the launch |
| ActionHandling.ActionHandler.LaunchFound | phone_agent/agent/actions.py:231-238 | a found package is launched as specified |
| ActionHandling.ActionHandler.StartPackage | phone_agent/agent/actions.py:231-238 | launches a settled package and reports it |
| ActionHandling.ActionHandler.HandleKeyPress | phone_agent/agent/actions.py:342-364 | sends the key-press plan's commands and returns its result |
| ActionHandling.ActionHandler.PressNamed | phone_agent/agent/actions.py:358-364 | presses a key given by name, as specified |
| ActionHandling.ActionHandler.HandleBack | phone_agent/agent/actions.py:366-370 | presses back once and reports "返回" or "返回失败" |
| ActionHandling.ActionHandler.HandleHome | phone_agent/agent/actions.py:372-376 | presses home once and reports "回到桌面" or "回到桌面失败" |
| ActionHandling.ActionHandler.HandleWait | phone_agent/agent/actions.py:378-385 | returns the specified wait report and touches nothing |
| ActionHandling.ActionHandler.HandleLongPress | phone_agent/agent/actions.py:387-395 | sends the long-press plan's commands and returns its result |
| ActionHandling.ActionHandler.HandleDoubleTap | phone_agent/agent/actions.py:397-404 | sends the double-tap plan's commands and returns its result |
| ActionHandling.ActionHandler.HandleFinish | phone_agent/agent/actions.py:406-409 | returns a finishing success carrying `message` (default "任务完成") |
| ActionHandling.ActionHandler.HandlePause | phone_agent/agent/actions.py:411-414 | returns a finishing success "[暂停] " + message |
| Adb.ParseSizeOf | phone_agent/adb/device.py:62-64 | a "WxH" text with two integer parts gives (W, H) |
| Adb.SizeRoundTrip | phone_agent/adb/device.py:62-64 | printing a size as "WxH" and parsing it gives the size back |
| Adb.ParseWmSizeOf | phone_agent/adb/device.py:59-64 | the size is read from the text after "Physical size:" |
| Adb.WmSizeRoundTrip | phone_agent/adb/device.py:56-67 | what `wm size` prints for a W x H screen parses back to (W, H) |
| Adb.ParseWmSize | phone_agent/adb/device.py:56-67 | a size other than the default 1080x1920 comes only from an answer whose stripped output contains "Physical size:" |
| Adb.WmSizeRaised | phone_agent/adb/device.py:65-67 | a failing `wm size` gives the default 1080x1920 |
| Adb.StagesAppend | phone_agent/adb/device.py:215-216 | the replacement chain distributes over concatenation |
| Adb.StagesChar | phone_agent/adb/device.py:215-216 | on one character the chain is that character's escape |
| Adb.EscapeText | phone_agent/adb/device.py:215-216 | the escaped text is the concatenation of each character's own escape |
| Adb.ReplacementsCharwise | phone_agent/adb/device.py:215-216 | the chain of five replacements escapes each character independently of its neighbours |
| Adb.EachCons | phone_agent/adb/device.py:215-216 | escaping a character in front of a text gives that character's escape followed by the text's |
| Adb.EscapedHasNoSpace | phone_agent/adb/device.py:216 | escaped text holds no space, so it stays one shell word |
| Adb.EscapePlain | phone_agent/adb/device.py:215-216 | text without the five special characters is unchanged |
| Adb.EscapeQuote | phone_agent/adb/device.py:215 | a double quote gains exactly one backslash |
| Adb.EscapeBackslashQuote | phone_agent/adb/device.py:215 | a backslash is doubled and a following quote escaped once |
| Adb.Percent | phone_agent/adb/device.py:179-204 | `int(n * p / 100)` truncates toward zero, for either sign |
| Adb.PercentMonotone | phone_agent/adb/device.py:179-204 | a larger share of a non-negative length never gives a smaller coordinate |
| Adb.SwipeUpPath | phone_agent/adb/device.py:175-181 | the swipe keeps to the centre column `w // 2`, from `h·70/100` to `h·(70 − distance)/100`, each truncated toward zero |
| Adb.SwipeDownPath | phone_agent/adb/device.py:183-189 | the swipe keeps to the centre column `w // 2`, from `h·30/100` to `h·(30 + distance)/100`, each truncated toward zero |
| Adb.SwipeLeftPath | phone_agent/adb/device.py:191-197 | the swipe keeps to the centre row `h // 2`, from `w·80/100` to `w·(80 − distance)/100`, each truncated toward zero |
| Adb.SwipeRightPath | phone_agent/adb/device.py:199-205 | the swipe keeps to the centre row `h // 2`, from `w·20/100` to `w·(20 + distance)/100`, each truncated toward zero |
| Adb.SwipeGeometry | phone_agent/adb/device.py:175-205 | directional swipes keep to the centre column or row and move the way they are named |
| Adb.RelativeScalesAgree | phone_agent/adb/device.py:125-133 | a fraction and the same point on the 0–1000 scale pick the same pixel when the scale is recognised |
| Adb.RelativeCorners | phone_agent/adb/device.py:125-133 | the corners of either scale map to the screen's corners |
| Adb.Looked | phone_agent/adb/device.py:50-54 | the size property issues at most one query |
| Adb.SizeSeenCached | phone_agent/adb/device.py:50-54 | a cached size is reused without asking the device |
| Adb.LaunchSteps | phone_agent/adb/device.py:262-285 | a launch sends one to three commands, starting with the main-activity start; on success the last is the launcher start |
| Adb.LaunchFallback | phone_agent/adb/device.py:266-280 | `monkey` is tried exactly after a start that printed an error or nothing; the launcher start follows unless a call raised |
| Adb.Device.constructor | phone_agent/adb/device.py:20-33 | a new device has sent nothing and has no cached size |
| Adb.Device.Shell | phone_agent/adb/device.py:43-47 | one shell call: appended to the log, answered by the device |
| Adb.Device.Run | phone_agent/adb/device.py:110-115 | a primitive reports success exactly when its one shell call does not raise |
| Adb.Device.ScreenSize | phone_agent/adb/device.py:49-67 | queries `wm size` only when nothing is cached, then caches the parsed size |
| Adb.Device.Tap | phone_agent/adb/device.py:102-115 | sends one `input tap x y` and reports whether it went through |
| Adb.Device.TapRelative | phone_agent/adb/device.py:117-135 | reads the size if needed, then taps the converted point |
| Adb.Device.LongPress | phone_agent/adb/device.py:137-145 | sends a swipe that starts and ends at the point |
| Adb.Device.DoubleTap | phone_agent/adb/device.py:147-157 | sends two taps and reports success whatever they report |
| Adb.Device.Swipe | phone_agent/adb/device.py:159-173 | sends one `input swipe` and reports whether it went through |
| Adb.Device.SwipePath | phone_agent/adb/device.py:159-173 | sends one swipe along the given path |
| Adb.Device.SwipeUp | phone_agent/adb/device.py:175-181 | reads the size if needed, then swipes up the centre column |
| Adb.Device.SwipeDown | phone_agent/adb/device.py:183-189 | reads the size if needed, then swipes down the centre column |
| Adb.Device.SwipeLeft | phone_agent/adb/device.py:191-197 | reads the size if needed, then swipes left along the centre row |
| Adb.Device.SwipeRight | phone_agent/adb/device.py:199-205 | reads the size if needed, then swipes right along the centre row |
| Adb.Device.InputTextPlain | phone_agent/adb/device.py:207-221 | sends the escaped text in one `input text` |
| Adb.Device.InputTextAdbIme | phone_agent/adb/device.py:223-235 | sends one broadcast to the ADB keyboard carrying the text |
| Adb.Device.PressKey | phone_agent/adb/device.py:237-244 | sends one `input keyevent` |
| Adb.Device.PressBack | phone_agent/adb/device.py:246-248 | presses key code 4 |
| Adb.Device.PressHome | phone_agent/adb/device.py:250-252 | presses key code 3 |
| Adb.Device.PressRecent | phone_agent/adb/device.py:254-256 | presses key code 187 |
| Adb.Device.PressEnter | phone_agent/adb/device.py:258-260 | presses key code 66 |
| Adb.Device.LaunchApp | phone_agent/adb/device.py:262-285 | sends the specified launch sequence and returns its outcome |
| Adb.Device.LaunchAppSimple | phone_agent/adb/device.py:287-296 | sends one `monkey` launch |
| Adb.Device.StopApp | phone_agent/adb/device.py:298-305 | sends one `am force-stop` |
| DeviceRegistry.StateValue | phone_agent/adb/device_manager.py:19-25 | every device state has a non-empty value |
| DeviceRegistry.StateValueInjective | phone_agent/adb/device_manager.py:19-25 | distinct states have distinct values |
| DeviceRegistry.OfflineInfo | phone_agent/adb/device_manager.py:36-47 | an OFFLINE entry keeps the serial and leaves every other field at its default |
| DeviceRegistry.ParsedLines | phone_agent/adb/device_manager.py:120-122 | each output line is parsed on its own |
| DeviceRegistry.PropLineShape | phone_agent/adb/device_manager.py:121-122 | exactly the stripped lines that open with `[` and hold `]: [` are parsed |
| DeviceRegistry.PropLineOf | phone_agent/adb/device_manager.py:123-127 | a parsed line yields the text between the brackets as key and value |
| DeviceRegistry.PropLineRoundTrip | phone_agent/adb/device_manager.py:117-128 | a property printed as `[key]: [value]` parses back to its key and value when the key holds no `]` |
| DeviceRegistry.PropsAppend | phone_agent/adb/device_manager.py:120-127 | one more line stores its parse, if any |
| DeviceRegistry.PropsLastWins | phone_agent/adb/device_manager.py:127 | a later line for a key overrides every earlier one |
| DeviceRegistry.PropsSkipsOtherLines | phone_agent/adb/device_manager.py:122 | lines that are not `[key]: [value]` leave the dict as it was |
| DeviceRegistry.PropsDistinct | phone_agent/adb/device_manager.py:117-128 | each key appears once in the parsed dict |
| DeviceRegistry.ParseProps | phone_agent/adb/device_manager.py:117-128 | the loop builds the specified dict from the output's lines |
| DeviceRegistry.ParseLines | phone_agent/adb/device_manager.py:120-127 | the loop over split lines builds the specified dict |
| DeviceRegistry.ProbeDevice | phone_agent/adb/device_manager.py:86-115 | the entry keeps the serial; a failing `getprop` gives the OFFLINE entry, otherwise the entry read from the properties |
| DeviceRegistry.ProbeFromProps | phone_agent/adb/device_manager.py:95-115 | an ONLINE entry carries the model, brand and version properties and the parsed `wm size`; otherwise the probe failed and the entry is OFFLINE |
| DeviceRegistry.ProbeOnline | phone_agent/adb/device_manager.py:98-99 | an integer SDK property gives an ONLINE entry with that level |
| DeviceRegistry.ProbeNoSdk | phone_agent/adb/device_manager.py:98-99 | with no SDK property the entry is ONLINE with no level |
| DeviceRegistry.ProbeBadSdk | phone_agent/adb/device_manager.py:99-115 | an SDK property that is not an integer makes the device OFFLINE |
| DeviceRegistry.ProbeAll | phone_agent/adb/device_manager.py:77-84 | one entry per connected device |
| DeviceRegistry.ProbeAllAt | phone_agent/adb/device_manager.py:79-81 | each scanned entry is its own device's probe |
| DeviceRegistry.LookupWellKeyed | phone_agent/adb/device_manager.py:144-146 | an entry carries the id it is stored under |
| DeviceRegistry.RegisterAllSnoc | phone_agent/adb/device_manager.py:82 | storing one more probe is a `Put` under its serial |
| DeviceRegistry.PutWellKeyed | phone_agent/adb/device_manager.py:82 | storing a probe keeps the registry keyed by serial |
| DeviceRegistry.RegisterAllWellKeyed | phone_agent/adb/device_manager.py:79-82 | a scan keeps the registry keyed by serial |
| DeviceRegistry.RegisterAllKeeps | phone_agent/adb/device_manager.py:75-84 | scanning never removes a device |
| DeviceRegistry.RegisterAllLookup | phone_agent/adb/device_manager.py:75-84 | after a scan, a serial that was seen maps to its last probe and any other serial keeps its entry |
| DeviceRegistry.Available | phone_agent/adb/device_manager.py:148-150 | exactly the ONLINE entries, drawn from the registry |
| DeviceRegistry.Acquired | phone_agent/adb/device_manager.py:152-160 | acquiring keeps the set of registered devices |
| DeviceRegistry.Released | phone_agent/adb/device_manager.py:162-168 | releasing keeps the set of registered devices and ignores an unknown id |
| DeviceRegistry.AcquireEffect | phone_agent/adb/device_manager.py:152-160 | an acquired device is BUSY with its task, cannot be acquired again, and no other device changes |
| DeviceRegistry.AcquireRelease | phone_agent/adb/device_manager.py:152-168 | releasing an acquired device restores its ONLINE entry without a task, so it can be acquired again |
| DeviceRegistry.AcquireWellKeyed | phone_agent/adb/device_manager.py:152-160 | acquiring keeps the registry keyed by serial |
| DeviceRegistry.ReleaseWellKeyed | phone_agent/adb/device_manager.py:162-168 | releasing keeps the registry keyed by serial |
| DeviceRegistry.FindAppByName | phone_agent/adb/device_manager.py:237-250 | the first app whose package or name contains the keyword case-insensitively; None when no app does |
| DeviceRegistry.FindAppIgnoresCase | phone_agent/adb/device_manager.py:242 | the keyword's case does not matter |
| DeviceRegistry.DeviceManager.constructor | phone_agent/adb/device_manager.py:53-66 | a new registry is empty |
| DeviceRegistry.DeviceManager.GetDevice | phone_agent/adb/device_manager.py:144-146 | a device is found exactly when registered, and it carries that id |
| DeviceRegistry.DeviceManager.AvailableDevices | phone_agent/adb/device_manager.py:148-150 | only ONLINE devices, each one drawn from the registry, and every ONLINE entry of the registry among them |
| DeviceRegistry.DeviceManager.ScanDevices | phone_agent/adb/device_manager.py:75-84 | returns each device's probe in order and stores each under its serial |
| DeviceRegistry.DeviceManager.AcquireDevice | phone_agent/adb/device_manager.py:152-160 | succeeds exactly for a registered ONLINE device, marking it BUSY with the task; otherwise changes nothing |
| DeviceRegistry.DeviceManager.ReleaseDevice | phone_agent/adb/device_manager.py:162-168 | marks a known device ONLINE with no task |
| ProvidersBase.Without | phone_agent/providers/base.py:84-87 | the key is gone, every other key keeps its value, and nothing is added |
| ProvidersBase.WithoutAppend | phone_agent/providers/base.py:85 | the surviving pairs keep their order |
| ProvidersBase.SplitDecoded | phone_agent/providers/base.py:82-100 | a decoded object gives its `thinking` (default "") and the serialisation of the rest; anything else raises |
| ProvidersBase.SkipSpace | phone_agent/providers/base.py:79 | `\s*` ends within the text, at or after its start |
| ProvidersBase.SkipSpaceRun | phone_agent/providers/base.py:79 | `\s*` covers whitespace only and stops at the first character that is not whitespace |
| ProvidersBase.CloseFrom | phone_agent/providers/base.py:79 | the lazy `.*?\}` stops only at a `}` that whitespace and "```" follow |
| ProvidersBase.CloseFromFirst | phone_agent/providers/base.py:79 | the lazy `.*?\}` stops at the first such `}`, and fails exactly when there is none |
| ProvidersBase.FirstFence | phone_agent/providers/base.py:79 | a start position the search reports is one where the whole pattern matches |
| ProvidersBase.FirstFenceFirst | phone_agent/providers/base.py:79 | the search reports the leftmost matching start position, and none exactly when no position matches |
| ProvidersBase.FencedBlock | phone_agent/providers/base.py:79 | the group of a match begins with `{` and ends with `}` |
| ProvidersBase.OpeningFence | phone_agent/providers/base.py:79 | a match opens with "```", the optional tag "json", whitespace only, then the `{` |
| ProvidersBase.GroupSpan | phone_agent/providers/base.py:79 | the group runs from the opening `{` to the closing `}`, both included |
| ProvidersBase.ClosingFence | phone_agent/providers/base.py:79 | the group ends at a `}` that whitespace and "```" follow |
| ProvidersBase.LazyClose | phone_agent/providers/base.py:79 | no earlier `}` inside the group could have closed it |
| ProvidersBase.FencedBlockNone | phone_agent/providers/base.py:79 | the search fails exactly when the pattern matches at no position |
| ProvidersBase.FencedBlockLeftmost | phone_agent/providers/base.py:79 | the search gives the group of the leftmost matching position |
| ProvidersBase.FenceAtStart | phone_agent/providers/base.py:79 | a match at the first position gives the text from its `{` to its closing `}` |
| ProvidersBase.CloseFromAtClose | phone_agent/providers/base.py:79 | the lazy close stops at the first `}` when it is followed by whitespace and "```" |
| ProvidersBase.FencedBlockTagged | phone_agent/providers/base.py:79 | "```json", a newline, `{"a": 1}`, a newline and "```" give the group `{"a": 1}` |
| ProvidersBase.FencedBlockLazy | phone_agent/providers/base.py:79 | of two fenced blocks, the first is taken: the lazy group stops at the first fenced `}` |
| ProvidersBase.ParseResponse | phone_agent/providers/base.py:66-105 | only AttributeError escapes: a decode failure falls through to the next attempt |
| ProvidersBase.ParseResponseChain | phone_agent/providers/base.py:66-105 | the fenced block when it decodes, else the whole text when it decodes, else `("", raw)` |
| ProvidersBase.ActionHasNoThinking | phone_agent/providers/base.py:66-105 | a parsed action is the raw text or an object without `thinking`; a failure is only a non-object JSON value |
| ProvidersBase.ResponseOf | phone_agent/providers/base.py:66-105 | the response keeps the raw content and the token counts; undecodable content becomes the action itself |
| ProvidersBase.SystemOf | phone_agent/providers/anthropic_client.py:62-67 | no system message gives "" |
| ProvidersBase.Conversation | phone_agent/providers/anthropic_client.py:63-69 | the non-system messages, drawn from the input |
| ProvidersBase.SystemOfLast | phone_agent/providers/anthropic_client.py:65-67 | the last system message wins |
| ProvidersBase.ConversationAppend | phone_agent/providers/anthropic_client.py:65-69 | the split distributes over concatenation, so order is kept |
| ProvidersBase.ConversationNoSystem | phone_agent/providers/anthropic_client.py:65-69 | without system messages the conversation is the whole list |
| OpenAIChat.FirstMarker | phone_agent/providers/openai_client.py:60-68 | finds the earliest marker of the table that occurs in the URL, or reports none |
| OpenAIChat.ProviderName | phone_agent/providers/openai_client.py:58-69 | no URL or an empty one gives "OpenAI"; otherwise the name is "OpenAI" or a provider name of the marker table |
| OpenAIChat.ProviderNameIsFirstMarker | phone_agent/providers/openai_client.py:58-69 | the provider is the first matching marker's name (case-insensitive), and "OpenAI" when none matches or the URL is empty |
| OpenAIChat.BuiltMessageCases | phone_agent/providers/openai_client.py:83-99 | with an image, a user message becomes the image part and a text part; all other messages go through unchanged |
| OpenAIChat.BuildMessages | phone_agent/providers/openai_client.py:75-101 | one message out per message in, in order, each built as specified |
| OpenAIChat.CompletionResponse | phone_agent/providers/openai_client.py:118-130 | `None` content reads as "" and missing usage as zeros; otherwise the usage counts are copied |
| OpenAIChat.Connection.constructor | phone_agent/providers/openai_client.py:41-45 | the SDK client keeps the key, base URL and headers |
| OpenAIChat.OpenAIClient.constructor | phone_agent/providers/openai_client.py:19-36 | the client keeps its settings and has no SDK client yet |
| OpenAIChat.OpenAIClient.ModelName | phone_agent/providers/openai_client.py:71-73 | the configured model |
| OpenAIChat.OpenAIClient.Client | phone_agent/providers/openai_client.py:38-46 | the SDK client is built once, from the key, base URL and headers, then reused |
| OpenAIChat.OpenAIClient.Request | phone_agent/providers/openai_client.py:103-130 | the built messages go to the endpoint and the completion is read as specified |
| AnthropicChat.MessageDict.constructor | phone_agent/providers/anthropic_client.py:95-98 | a caller's message dict holds its role and content |
| AnthropicChat.Snapshot | phone_agent/providers/anthropic_client.py:108-113 | one value per dict |
| AnthropicChat.NonSystem | phone_agent/providers/anthropic_client.py:63-69 | the conversation holds the caller's own dicts |
| AnthropicChat.NonSystemIsConversation | phone_agent/providers/anthropic_client.py:57-71 | reading the selected dicts is the shared conversation split |
| AnthropicChat.ExtractSystemAndMessages | phone_agent/providers/anthropic_client.py:57-71 | the loop returns the last system content and the non-system dicts, in order |
| AnthropicChat.BuildContent | phone_agent/providers/anthropic_client.py:73-93 | an image block first when there is an image, then exactly one text block |
| AnthropicChat.LastDict | phone_agent/providers/anthropic_client.py:104 | the last dict of a non-empty list |
| AnthropicChat.TextOfAppend | phone_agent/providers/anthropic_client.py:115-118 | joining distributes over concatenation |
| AnthropicChat.JoinText | phone_agent/providers/anthropic_client.py:115-118 | the loop concatenates the text blocks in order |
| AnthropicChat.ReplyResponse | phone_agent/providers/anthropic_client.py:120-129 | the joined text, input and output counts, and their sum as the total |
| AnthropicChat.SystemParam | phone_agent/providers/anthropic_client.py:111 | the system prompt is sent exactly when it is truthy |
| AnthropicChat.Connection.constructor | phone_agent/providers/anthropic_client.py:33-37 | the SDK client keeps the key and base URL |
| AnthropicChat.AnthropicClient.constructor | phone_agent/providers/anthropic_client.py:16-29 | the client keeps its settings and has no SDK client yet |
| AnthropicChat.AnthropicClient.ProviderName | phone_agent/providers/anthropic_client.py:49-51 | "Anthropic" |
| AnthropicChat.AnthropicClient.ModelName | phone_agent/providers/anthropic_client.py:53-55 | the configured model |
| AnthropicChat.AnthropicClient.Client | phone_agent/providers/anthropic_client.py:31-38 | built once; the base URL is passed only when truthy |
| AnthropicChat.AnthropicClient.Request | phone_agent/providers/anthropic_client.py:95-129 | the caller's last user dict gains the image block and a text block; no other dict or role changes; the reply to the system prompt and rewritten conversation is read as specified |
| AnthropicChat.AnthropicClient.Prepare | phone_agent/providers/anthropic_client.py:101-106 | the system text is taken from the messages as they were, the conversation is the non-system dicts, the last user dict gains the image, and no role changes |
| AnthropicChat.AnthropicClient.AttachImage | phone_agent/providers/anthropic_client.py:104-106 | only the last dict, when it is a user message, is rewritten |
| AnthropicChat.AnthropicClient.Send | phone_agent/providers/anthropic_client.py:108-129 | the call and the reading of its reply, as specified |
| GeminiChat.ExtractSystemPrompt | phone_agent/providers/gemini_client.py:50-64 | the loop returns the last system content and the other messages, in order |
| GeminiChat.Converted | phone_agent/providers/gemini_client.py:66-92 | one converted message per message |
| GeminiChat.ConvertedShape | phone_agent/providers/gemini_client.py:74-90 | "user" stays "user" and every other role is "model"; only the last message, when it is a user message and there is an image, gets the image before its text |
| GeminiChat.ConvertToGeminiMessages | phone_agent/providers/gemini_client.py:66-92 | the loop builds the specified conversion |
| GeminiChat.History | phone_agent/providers/gemini_client.py:117 | all but the last message when there are at least two, else nothing |
| GeminiChat.LastParts | phone_agent/providers/gemini_client.py:120-121 | the last message's parts, or one empty text part |
| GeminiChat.HistoryThenLast | phone_agent/providers/gemini_client.py:117-121 | history and the message sent partition the conversation |
| GeminiChat.ModelFor | phone_agent/providers/gemini_client.py:103-112 | a new model with the system instruction exactly when the system prompt is truthy |
| GeminiChat.CountOr0 | phone_agent/providers/gemini_client.py:128-130 | a missing count or missing metadata reads as zero |
| GeminiChat.GeminiResponse | phone_agent/providers/gemini_client.py:123-139 | the reply text and counts, with the total as prompt plus candidates |
| GeminiChat.GeminiClient.constructor | phone_agent/providers/gemini_client.py:18-40 | the client keeps its settings |
| GeminiChat.GeminiClient.ProviderName | phone_agent/providers/gemini_client.py:42-44 | "Google" |
| GeminiChat.GeminiClient.ModelName | phone_agent/providers/gemini_client.py:46-48 | the configured model |
| GeminiChat.GeminiClient.Request | phone_agent/providers/gemini_client.py:94-139 | the system prompt picks the model; the converted conversation is split into history and the message sent; the reply is read as specified |
| ClientFactory.CreateVlmClient | phone_agent/providers/factory.py:16-62 | fails with ValueError exactly for a protocol that is not openai, anthropic or google after lower-casing; each protocol gets its own client with the arguments it takes |
| ClientFactory.LowerIdempotent | phone_agent/providers/factory.py:38 | lower-casing twice is lower-casing once |
| ClientFactory.CreateIgnoresCase | phone_agent/providers/factory.py:38 | protocols that agree after lower-casing build the same client |
| ClientFactory.GeminiNameRejected | phone_agent/providers/factory.py:55-62 | "gemini" is not a protocol the factory knows |
| ClientFactory.FromProfile | phone_agent/providers/factory.py:65-81 | succeeds exactly when the lower-cased protocol is openai, anthropic or google, and otherwise raises ValueError; each protocol gets its own client with the profile's key and model, the base URL for OpenAI and Anthropic, and the headers for OpenAI only |
| ClientFactory.FromValidProfile | phone_agent/providers/factory.py:65-81 | a profile with a valid protocol always yields a client of that protocol's kind |
| PromptAssembly.StringList | phone_agent/prompts/manager.py:39 | a list field is accepted only when every item is a string, and then it keeps every item in order |
| PromptAssembly.ListField | phone_agent/prompts/manager.py:39 | a missing list field defaults to the empty list |
| PromptAssembly.TextField | phone_agent/prompts/manager.py:40 | a missing `system_prompt` defaults to the empty string |
| PromptAssembly.NameField | phone_agent/prompts/manager.py:37-38 | a required field is accepted only when present and a string, and then is that string |
| PromptAssembly.AppConfigOf | phone_agent/prompts/manager.py:34-41 | a file validates only when it is a mapping whose `name` is the config's name |
| PromptAssembly.FeatureConfigOf | phone_agent/prompts/manager.py:44-50 | a file validates only when it is a mapping whose `name` is the config's name |
| PromptAssembly.AliasesRegistered | phone_agent/prompts/manager.py:96-97 | every alias of an app leads to that app's config |
| PromptAssembly.AppFileIndexed | phone_agent/prompts/manager.py:88-97 | a valid app file registers the app under its name and every alias, and its package under its name |
| PromptAssembly.AliasesKeep | phone_agent/prompts/manager.py:96-97 | registering aliases of a config never hides a key that already led to that config |
| PromptAssembly.FirstFeature | phone_agent/prompts/manager.py:115-124 | the first feature, in insertion order, with a keyword occurring in the task; none exactly when no feature has one |
| PromptAssembly.KeywordFound | phone_agent/prompts/manager.py:120-122 | the loop finds a keyword exactly when some lower-cased keyword occurs in the lower-cased task |
| PromptAssembly.DetectFeature | phone_agent/prompts/manager.py:115-124 | the loop returns the name of the first matching feature, or None |
| PromptAssembly.FirstFeatureAt | phone_agent/prompts/manager.py:119-123 | a matching feature preceded only by non-matching ones is the one detected |
| PromptAssembly.FirstFeatureNone | phone_agent/prompts/manager.py:124 | nothing is detected when no feature matches |
| PromptAssembly.DeviceLines | phone_agent/prompts/manager.py:180-183 | device info yields exactly the device line and the screen line |
| PromptAssembly.InstalledLines | phone_agent/prompts/manager.py:188-192 | at most twenty apps are listed; the total follows only when there are more than twenty |
| PromptAssembly.ContextLines | phone_agent/prompts/manager.py:176-196 | the step line "step/max" is always present and always last |
| PromptAssembly.BuildContextInfo | phone_agent/prompts/manager.py:176-196 | the context block is never empty, so the state section at line 171 is always added |
| PromptAssembly.JoinLast | phone_agent/prompts/manager.py:196 | joining lines whose last one is non-empty gives a non-empty text |
| PromptAssembly.ScreenDefaults | phone_agent/prompts/manager.py:182-183 | missing screen sizes print as 1080x1920 |
| PromptAssembly.AppForPackage | phone_agent/prompts/manager.py:126-131 | a config is found only through a non-empty app name registered for the package; an unknown package finds nothing |
| PromptAssembly.DefaultSection | phone_agent/prompts/manager.py:152-155 | at most one default prompt is used |
| PromptAssembly.AppSection | phone_agent/prompts/manager.py:157-161 | at most one app guide is used |
| PromptAssembly.FeatureSection | phone_agent/prompts/manager.py:163-167 | at most one feature hint is used |
| PromptAssembly.StateSection | phone_agent/prompts/manager.py:169-172 | the state section is always present and carries the context block |
| PromptAssembly.PromptParts | phone_agent/prompts/manager.py:133-174 | one to four parts, the state section always last |
| PromptAssembly.DetectedFeatureOverrides | phone_agent/prompts/manager.py:163-164 | when the context names a feature, the task's words do not change the prompt |
| PromptAssembly.LanguagePromptFirst | phone_agent/prompts/manager.py:152-155 | the prompt opens with the language's own non-empty default prompt |
| PromptAssembly.ChineseFallback | phone_agent/prompts/manager.py:152-155 | without one, it opens with the non-empty Chinese prompt |
| PromptAssembly.ListAppsAsWritten | phone_agent/prompts/manager.py:214-219 | the listing succeeds only when no app is registered (see Findings) |
| PromptAssembly.ListAppsFailsOnOneApp | phone_agent/prompts/manager.py:214-219 | one valid app file makes the listing raise TypeError |
| PromptAssembly.DistinctConfigs | phone_agent/prompts/manager.py:219 | the same configs as the table's values, each once |
| PromptAssembly.ListedApps | phone_agent/prompts/manager.py:214-219 | every registered app's name is listed, only registered names are listed, and no more names than table entries |
| PromptAssembly.DistinctShorter | phone_agent/prompts/manager.py:219 | a repeat-free sequence drawn from another is no longer than it |
| PromptAssembly.CardOfDistinct | phone_agent/prompts/manager.py:219 | a repeat-free sequence has as many distinct items as entries |
| PromptAssembly.CardAtMost | phone_agent/prompts/manager.py:219 | a sequence has no more distinct items than entries |
| PromptAssembly.SubsetCard | phone_agent/prompts/manager.py:219 | a subset is no larger than its superset |
| PromptAssembly.PromptManager.constructor | phone_agent/prompts/manager.py:56-62 | empty tables, not loaded |
| PromptAssembly.PromptManager.Load | phone_agent/prompts/manager.py:64-69 | loads system, app and feature prompts in that order and marks the manager loaded |
| PromptAssembly.PromptManager.LoadSystemPrompts | phone_agent/prompts/manager.py:71-79 | each file's text is stored under its stem without "default_"; a missing directory changes nothing; other tables stay |
| PromptAssembly.PromptManager.LoadAppPrompts | phone_agent/prompts/manager.py:81-99 | every valid file registers its app as specified; invalid files are skipped; a missing directory changes nothing |
| PromptAssembly.PromptManager.RegisterAliases | phone_agent/prompts/manager.py:96-97 | the alias loop registers every alias and nothing else changes |
| PromptAssembly.PromptManager.LoadFeaturePrompts | phone_agent/prompts/manager.py:101-113 | every valid file registers its feature under its name; invalid files are skipped |
| PromptAssembly.PromptManager.EnsureLoaded | phone_agent/prompts/manager.py:147-148 | loading happens on first use only |
| PromptAssembly.PromptManager.GetAppConfigByPackage | phone_agent/prompts/manager.py:126-131 | the config found through the package table, as specified |
| PromptAssembly.PromptManager.BuildSystemPrompt | phone_agent/prompts/manager.py:133-174 | loads on first use, then joins the specified parts with newlines |
| PromptAssembly.PromptManager.ListApps | phone_agent/prompts/manager.py:214-219 | the intended listing of app names (see Findings) |
| PromptAssembly.PromptManager.ListFeatures | phone_agent/prompts/manager.py:221-226 | the feature names, in insertion order |
| PromptAssembly.PromptManager.GetAppPrompt | phone_agent/prompts/manager.py:198-204 | the registered app's prompt, or "" when the name is unknown |
| PromptAssembly.PromptManager.GetFeaturePrompt | phone_agent/prompts/manager.py:206-212 | the registered feature's prompt, or "" when the name is unknown |
| Profiles.ProfileStr | phone_agent/config/profile.py:32-34 | "vendor/model", with " (免费)" appended exactly for a free profile |
| Profiles.RequiredString | phone_agent/config/profile.py:20-25 | a required field validates exactly when present and a string, and is then that string |
| Profiles.OptionalString | phone_agent/config/profile.py:23-26 | absent or null reads as None, and only those do; otherwise the value is that string |
| Profiles.OptionalBool | phone_agent/config/profile.py:27 | an absent `is_free` reads as false |
| Profiles.StringPairs | phone_agent/config/profile.py:28-30 | a header table is accepted only with string values, and then keeps every pair in order |
| Profiles.OptionalHeaders | phone_agent/config/profile.py:28-30 | absent or null headers read as None |
| Profiles.ProfileOf | phone_agent/config/profile.py:14-30 | a validated profile has one of the three protocols and the entry's own name and protocol; `is_free` defaults to false; every failure is a ValidationError |
| Profiles.ProfileRest | phone_agent/config/profile.py:23-30 | the fields after the protocol keep the given name, vendor and protocol, leave `is_free` false when it is absent, and fail only with a ValidationError |
| Profiles.ProtocolChecked | phone_agent/config/profile.py:14-22 | any protocol other than openai, anthropic, google fails validation |
| Profiles.ExpandUnset | phone_agent/config/profile.py:69-78 | with no variable set, every `${NAME}` stays as it was and the text is unchanged |
| Profiles.ExpandPlaceholder | phone_agent/config/profile.py:74-78 | a leading `${NAME}` becomes the variable's value, or stays literal when unset, and the rest is expanded on its own |
| Profiles.ExpandString | phone_agent/config/profile.py:69-78 | text without `$` is left unchanged |
| Profiles.ExpandEnvVars | phone_agent/config/profile.py:66-83 | the same keys in the same order, each value expanded |
| Profiles.ExpandEnvVarsShape | phone_agent/config/profile.py:71-82 | strings are expanded, dicts expanded recursively, other values kept |
| Profiles.ExpandValue | phone_agent/config/profile.py:66-83 | strings stay strings and dicts stay dicts with the same keys; every other value is kept unchanged |
| Profiles.ExpandValueUnset | phone_agent/config/profile.py:66-83 | with no variable set, expansion changes nothing at any depth |
| Profiles.LoadEntryNames | phone_agent/config/profile.py:56-62 | after one entry, every profile is still stored once, under its own name |
| Profiles.CandidateNamed | phone_agent/config/profile.py:59 | the entry's key becomes the profile's name, whatever `name` the entry carried |
| Profiles.PutNamed | phone_agent/config/profile.py:62 | storing a profile under its own name keeps every stored profile under its own name |
| Profiles.LoadEntriesNames | phone_agent/config/profile.py:56-64 | after the whole loop, every profile is stored once, under its own name |
| Profiles.InvalidEntrySkipped | phone_agent/config/profile.py:60-64 | an entry that fails validation leaves the profiles as they were and the loop goes on |
| Profiles.ValidEntryRegistered | phone_agent/config/profile.py:58-62 | a valid entry is found under its key afterwards, replacing an earlier one |
| Profiles.ErrorStops | phone_agent/config/profile.py:56-58 | once an entry that is not a dict raises, later entries change nothing |
| Profiles.LookupNamed | phone_agent/config/profile.py:85-87 | in a table keyed by name, a lookup finds the profile with that name, and finds nothing exactly when the key is absent |
| Profiles.ProfileManager.constructor | phone_agent/config/profile.py:40-42 | no profiles and no default name |
| Profiles.ProfileManager.LoadFromYaml | phone_agent/config/profile.py:44-64 | a missing file raises FileNotFoundError and a non-mapping file or `profiles` value AttributeError, changing no profiles; otherwise the default name is read and the entries registered as specified |
| Profiles.ProfileManager.Register | phone_agent/config/profile.py:55-64 | the loop registers the entries as specified and stops at the first AttributeError |
| Profiles.ProfileManager.AddNext | phone_agent/config/profile.py:56-64 | one pass of the loop extends the outcome of the entries before it by one entry, and an error it raises is the outcome of the whole loop |
| Profiles.ProfileManager.Add | phone_agent/config/profile.py:58-64 | one entry is expanded, named and validated, and the profiles become what loading that entry gives, with the default name unchanged |
| Profiles.LoadEntriesNext | phone_agent/config/profile.py:56-64 | after entries that raised nothing, one more entry gives that entry's own outcome |
| Profiles.ProfileManager.GetProfile | phone_agent/config/profile.py:85-87 | the stored profile of that name, or None exactly when no profile has that name |
| Profiles.ProfileManager.ListProfiles | phone_agent/config/profile.py:89-91 | the names in registration order |
| Profiles.ProfileManager.GetAllProfiles | phone_agent/config/profile.py:93-95 | a copy that answers every lookup as the manager does, with the same names in the same order |
| Profiles.ProfileManager.DefaultProfile | phone_agent/config/profile.py:102-107 | None when the default name is falsy; the named profile when it is a string; TypeError exactly for an unhashable truthy name |
| Profiles.ProfileManager.Len | phone_agent/config/profile.py:109-110 | the number of profile names |
| Profiles.ProfileManager.Contains | phone_agent/config/profile.py:112-113 | true exactly when a profile of that name is stored |
| Ocr.SkipSpaces | phone_agent/ocr/engine.py:82-84 | the end of the whitespace run `\s*` starting at a position |
| Ocr.OnlyAtRunEnd | phone_agent/ocr/engine.py:82-84 | a match of "ADB", whitespace and a word ends its whitespace exactly where the run ends, so one scan per start position decides the search |
| Ocr.Search | phone_agent/ocr/engine.py:87 | the scan finds a match exactly when "ADB", any whitespace and the word occur somewhere, ignoring case |
| Ocr.DetectKeyboardActive | phone_agent/ocr/engine.py:78-89 | true exactly when the text holds "ADB" then whitespace then "Keyboard" or "Input", in any case |
| Ocr.FusedNoticeDetected | phone_agent/ocr/engine.py:82 | "ADBKEYBOARD" with no space, in upper case, counts |
| Ocr.NoAdbNoNotice | phone_agent/ocr/engine.py:81-89 | text without the letters "adb" never signals the keyboard |
| Ocr.BottomBand | phone_agent/ocr/engine.py:62-64 | the crop spans the full width and the bottom 150 rows, or the whole height when it is smaller |
| Ocr.HasNoticeFromIs | phone_agent/ocr/engine.py:87 | the recursive search from a position finds exactly the matches starting there or later |
| Ocr.MatchHere | phone_agent/ocr/engine.py:87 | a match starts at a position exactly when "adb" is there and the word follows the run of spaces |
| Ocr.KeyboardNoticeInIs | phone_agent/ocr/engine.py:86-89 | the computed test agrees with the definition of the notice |
| Ocr.OcrEngine.constructor | phone_agent/ocr/engine.py:23-24 | availability unknown and not probed |
| Ocr.OcrEngine.CheckTesseract | phone_agent/ocr/engine.py:26-38 | the probe runs once and its answer is cached and returned afterwards |
| Ocr.OcrEngine.Recognize | phone_agent/ocr/engine.py:40-76 | without tesseract, the empty result; otherwise an undecodable image raises, failed OCR gives the empty result, and the text of the bottom band is returned with the keyboard test |
| Ocr.OcrEngine.Recognized | phone_agent/ocr/engine.py:55-76 | OSError exactly when PNG bytes cannot be decoded; the keyboard flag is set only when the text holds the notice, and never for empty text |
| Ocr.OcrEngine.GetScreenContext | phone_agent/ocr/engine.py:91-100 | the keyboard line exactly when the keyboard is detected, else ""; recognition errors propagate |
| SettingsScreen.FirstKey | phone_agent/tui/screens/settings.py:409-415 | the first key in mapping order whose "KEY=" (or, for API keys, "# KEY=") starts the line; none exactly when no key does |
| SettingsScreen.FirstKeyAt | phone_agent/tui/screens/settings.py:409-415 | a matching key preceded only by non-matching ones is the one that wins |
| SettingsScreen.MergedLine | phone_agent/tui/screens/settings.py:407-418 | a line of no key is kept as is; a key's line becomes "KEY=value", or is dropped when the value is empty |
| SettingsScreen.MergeEnvLines | phone_agent/tui/screens/settings.py:404-422 | the two loops build the specified merge: every existing line merged in order, then the keys with a value and no rewritten line, in mapping order |
| SettingsScreen.MatchKey | phone_agent/tui/screens/settings.py:409-414 | the inner loop finds the first key whose assignment, or commented assignment, starts the line |
| SettingsScreen.OtherKeyPrefix | phone_agent/tui/screens/settings.py:410 | an assignment to one key never starts with another key's "KEY=", when keys hold no "=" |
| SettingsScreen.OwnKeyFirst | phone_agent/tui/screens/settings.py:409-415 | a written "KEY=value" line belongs to KEY and to no earlier key |
| SettingsScreen.SettledConcat | phone_agent/tui/screens/settings.py:407-422 | settled line lists stay settled when concatenated |
| SettingsScreen.RewrittenSettled | phone_agent/tui/screens/settings.py:407-418 | after the first loop, every line that belongs to a key is that key's current assignment |
| SettingsScreen.AppendedSettled | phone_agent/tui/screens/settings.py:420-422 | every appended line is its key's current assignment |
| SettingsScreen.MergedEnv | phone_agent/tui/screens/settings.py:404-422 | for distinct keys without "=" or a leading "#", every line of the merged file that belongs to a key holds that key's new non-empty value |
| SettingsScreen.MergedPartsSettled | phone_agent/tui/screens/settings.py:404-422 | the rewritten lines and the appended ones are each settled, and so is their concatenation |
| SettingsScreen.UpdatedWritten | phone_agent/tui/screens/settings.py:411-413 | a key counts as updated only when a line was rewritten with its non-empty value |
| SettingsScreen.AppendedHas | phone_agent/tui/screens/settings.py:420-422 | every key with a value that was not updated is appended |
| SettingsScreen.MergedAssignsEveryKey | phone_agent/tui/screens/settings.py:404-422 | every key with a non-empty value is assigned that value in the merged file |
| SettingsScreen.RewrittenSettledSame | phone_agent/tui/screens/settings.py:407-418 | the first loop leaves settled lines unchanged |
| SettingsScreen.UpdatedHas | phone_agent/tui/screens/settings.py:410-413 | a key whose current assignment is among the lines counts as updated |
| SettingsScreen.NothingAppended | phone_agent/tui/screens/settings.py:420-422 | nothing is appended when every key with a value was updated |
| SettingsScreen.MergeIdempotent | phone_agent/tui/screens/settings.py:404-422 | merging the merged lines again with the same values gives the same lines |
| SettingsScreen.UnmatchedAppend | phone_agent/tui/screens/settings.py:417-418 | the lines of no key split over concatenation |
| SettingsScreen.RewrittenUnmatched | phone_agent/tui/screens/settings.py:407-418 | the first loop keeps the lines of no key, all of them and in order, and adds none |
| SettingsScreen.AppendedMatched | phone_agent/tui/screens/settings.py:420-422 | every appended line belongs to a key |
| SettingsScreen.UnmatchedKept | phone_agent/tui/screens/settings.py:404-422 | the merged file holds exactly the original lines of no key, in their order |
| SettingsScreen.UpperKeysPlain | phone_agent/tui/screens/settings.py:396-402 | upper-case names told apart at one position meet what the merge's guarantees need |
| SettingsScreen.ApiKeysPlain | phone_agent/tui/screens/settings.py:396-402 | the five API-key names meet what the merge's guarantees need |
| SettingsScreen.SettingsNamesUpper | phone_agent/tui/screens/settings.py:472-477 | the four setting names are upper-case names |
| SettingsScreen.SettingsKeysPlain | phone_agent/tui/screens/settings.py:472-477 | the setting names meet what the merge's guarantees need |
| SettingsScreen.SaveApiKeys | phone_agent/tui/screens/settings.py:388-424 | the text written is the merge of the five API keys, with "# KEY=" lines counted, joined by newlines with a final newline |
| SettingsScreen.SaveSettings | phone_agent/tui/screens/settings.py:462-499 | the text written is the merge of the four settings, a blank profile selection reading as "", joined by newlines with a final newline |
| SettingsScreen.SaveProfileForm | phone_agent/tui/screens/settings.py:426-460 | nothing is saved exactly when the stripped name is empty; a saved document holds the form's entry under the stripped name |
| SettingsScreen.SaveKeepsOthers | phone_agent/tui/screens/settings.py:454 | saving one profile leaves every other profile of the document as it was |
| SettingsScreen.EntryNamed | phone_agent/tui/screens/settings.py:446-452 | the entry has no "name", so the loader's name is added at its end |
| SettingsScreen.NamedEntryFields | phone_agent/tui/screens/settings.py:446-452 | the loader finds the form's vendor and protocol (defaulting to OpenAI and openai), the model, and base URL and key, with empty ones stored as null |
| SettingsScreen.EntryLookups | phone_agent/tui/screens/settings.py:446-452 | each field of a saved entry is found as stored |
| SettingsScreen.EntryLookupsMissing | phone_agent/config/profile.py:26-30 | a saved entry has no description, `is_free` or headers |
| SettingsScreen.EntryLookupsFront | phone_agent/tui/screens/settings.py:447-449 | vendor, protocol and model are found as stored |
| SettingsScreen.EntryLookupsBack | phone_agent/tui/screens/settings.py:450-451 | base URL, API key and the added name are found as stored |
| SettingsScreen.LoadsFromFields | phone_agent/config/profile.py:17-30 | an entry whose fields are found as given loads as the profile they spell, with the defaults for the rest |
| SettingsScreen.OfferedProtocolsLoad | phone_agent/tui/screens/settings.py:179-186 | with the protocols the loader accepts, every offered protocol saved with an API key loads back as the profile entered |
| SettingsScreen.GeminiOptionNeverLoads | phone_agent/tui/screens/settings.py:183 | the form offers "gemini", and an entry saved with it never loads (see Findings) |
| SettingsScreen.NullKeyRejected | phone_agent/config/profile.py:24 | an entry whose API key is null fails validation |
| SettingsScreen.EmptyKeyNeverLoads | phone_agent/tui/screens/settings.py:451 | a profile saved with the key left empty, as the field's hint invites, is stored with null and is skipped when profiles load |
| SettingsScreen.SelectedProfileAsWritten | phone_agent/tui/screens/settings.py:322-328 | a profile is selected exactly when the item id starts with "profile-" |
| SettingsScreen.ReplaceAfterPrefix | phone_agent/tui/screens/settings.py:327 | removing every "profile-" from a prefixed id removes the prefix and every "profile-" in the rest |
| SettingsScreen.InnerPrefixRemoved | phone_agent/tui/screens/settings.py:327 | "work-profile-2" loses its inner "profile-" |
| SettingsScreen.SelectionLosesInnerPrefix | phone_agent/tui/screens/settings.py:327 | the item of profile "work-profile-2" selects "work-2" (see Findings) |
| SettingsScreen.SelectedProfile | phone_agent/tui/screens/settings.py:322-328 | the intended selection: a profile exactly when the id starts with "profile-" |
| SettingsScreen.SelectionRoundTrip | phone_agent/tui/screens/settings.py:327 | selecting a profile's list item selects that profile, whatever its name |
| SettingsScreen.SelectionAgrees | phone_agent/tui/screens/settings.py:327 | the written and intended selections agree on names without "profile-" |
| AgentCore.StepResultCopies | phone_agent/agent/core.py:166-175 | the step result carries the action's success and finish flag, the directive, the thinking, the cost and the token counts; it fails validation exactly when the action's message is neither a string nor null |
| AgentCore.FeedbackShape | phone_agent/agent/core.py:161-163 | the feedback is "动作执行成功" or "动作执行失败", followed by ": message" exactly when the message is truthy |
| AgentCore.TurnGrowth | phone_agent/agent/core.py:154-164 | a step adds the raw reply, then the feedback only when it does not finish: one or two messages |
| AgentCore.HistorySnoc | phone_agent/agent/core.py:154-164 | the history of one more step is the old history plus that step's messages |
| AgentCore.HistoryLength | phone_agent/agent/core.py:154-164 | steps that do not finish add two messages each and a finishing last step one |
| AgentCore.HistoryAt | phone_agent/agent/core.py:154-164 | in a run without a finish, step i's reply and feedback are messages 2i and 2i+1 after the opening |
| AgentCore.UnfinishedRunUsesAllSteps | phone_agent/agent/core.py:108-123 | a run whose last step did not finish took all `max_steps` steps (none when it is not positive), none finished, and it returns the step-limit message |
| AgentCore.SumSnoc | phone_agent/agent/core.py:111 | adding one step's cost adds it to the total |
| AgentCore.ModelClient.constructor | phone_agent/providers/base.py:24-43 | a client with its answers and nothing sent |
| AgentCore.ModelClient.Request | phone_agent/agent/core.py:133 | the answer to the n-th request, given the conversation sent, and the conversation is recorded |
| AgentCore.PhoneAgent.constructor | phone_agent/agent/core.py:47-66 | the agent keeps its collaborators and starts with no messages, no steps and no cost |
| AgentCore.PhoneAgent.Reset | phone_agent/agent/core.py:68-74 | no messages, no steps, no cost, and the ledger, when there is one, emptied |
| AgentCore.PhoneAgent.Begin | phone_agent/agent/core.py:86-101 | after the reset, the conversation is the system prompt built for the task, the current app and `max_steps` in the configured language, then the task message |
| AgentCore.PhoneAgent.Charge | phone_agent/agent/core.py:136-144 | with a ledger and a profile, the usage is recorded for the profile's vendor and model and the record's cost returned; otherwise the cost is 0 and the ledger is untouched |
| AgentCore.PhoneAgent.ExecuteStep | phone_agent/agent/core.py:125-175 | the counter moves first; the conversation goes to the client; a client error changes nothing more; otherwise the step is charged, the action runs as its handler plan says, and the conversation grows by the step's messages |
| AgentCore.PhoneAgent.Act | phone_agent/agent/core.py:136-175 | charge, act, record: an action error escapes before the conversation changes |
| AgentCore.PhoneAgent.RecordTurn | phone_agent/agent/core.py:153-164 | the raw reply, then the feedback unless the action finished |
| AgentCore.PhoneAgent.Advance | phone_agent/agent/core.py:109-111 | one step and its cost added to the total; the run's invariant holds after an unfinished step |
| AgentCore.PhoneAgent.Record | phone_agent/agent/core.py:111 | the step's cost joins the total and its turn the run's; the run's invariant holds again unless the step finished, and then only the last turn finished |
| AgentCore.FinishedSnoc | phone_agent/agent/core.py:108-121 | after steps none of which finished, one more step leaves at most the last one finished, and none when it does not finish |
| AgentCore.PhoneAgent.Run | phone_agent/agent/core.py:76-123 | at most `max_steps` steps, stopping early only at the first step that finishes; the conversation is the opening plus every step's messages; the reply is that step's message, "任务完成" or the step-limit message; the total is the sum of step costs and matches the ledger when steps are charged |

## Left out

- Real device I/O. The `adb shell` is the `respond` function of `Adb.Device`, keyed by a command's position in the log. Connecting (`client`, `device`), `screenshot`, `screenshot_to_file`, `get_current_app` and `get_current_activity` are not modelled. The agent takes the foreground app as a constant, and screenshots carry no data in the model.
- `launch_app`'s `monkey` pipeline is a structured command, not a shell string. The same holds for every other command the device sends.
- The vendor SDKs (OpenAI, Anthropic, Gemini) are parameters: `complete`, the Anthropic message call and `send` answer a request. Base64 encoding of the image is a parameter too, and images are opaque byte strings.
- `async_client`, `request_async` and `asyncio` locking: they exist only for concurrency. Acquire and release are sequential operations.
- JSON and YAML decoding and encoding are a `Codec` value of decode and encode functions. File reads, directory listings and file writes are inputs and outputs: a file's decoded content comes in, and the text or document to write goes out.
- The environment is a map handed to `${NAME}` expansion. Timestamps come from a clock parameter. `time.sleep`, the step delay and `Wait`'s sleep are not modelled; `Wait` only reports.
- Printing is not modelled: `verbose`, `_print_step_result`, `_print_billing_summary` and the RMB conversion in it. `enable_billing` only gates that printing.
- Floating point. Costs are exact `real` values: products and sums of prices and token counts, where Python's floats can differ in the last bit. Pixel coordinates are exact integer truncations: `e·W/1000` for relative points and whole per cents for the swipes. Where Python's float product falls just below an integer, `int()` gives one pixel less than the model; the directional swipes below are the common case.
- `Adb.Percent`: computes `int(n·p/100)` exactly, while `swipe_up`, `swipe_down`, `swipe_left` and `swipe_right` truncate a float product, so `Adb.SwipeUpPath`, `Adb.SwipeDownPath`, `Adb.SwipeLeftPath` and `Adb.SwipeRightPath` are one pixel higher than the source at these end points for common sizes and the default distance 0.5:
  - `swipe_up`'s end `int(h·(0.7 − 0.5))`: 383 for h = 1920 (model 384), 479 for 2400 (480), 467 for 2340 (468) and 215 for 1080 (216);
  - `int(720·0.7)` = 503 (model 504): `swipe_up`'s start for h = 720, and `swipe_right`'s end for w = 720;
  - `swipe_right`'s end `int(1440·(0.2 + 0.5))` = 1007 (model 1008).
- `Strings.Lower`: lower-cases ASCII letters only. Python's `str.lower` and `re.IGNORECASE` also fold other letters. Feature detection, the launch keyword search, protocol dispatch and the keyboard test are therefore exact only on ASCII text.
- `Profiles.ProfileOf`: accepts only JSON booleans for `is_free` and only strings for the string fields. Pydantic's lax coercions, such as `"yes"` or `1` for a boolean, are not modelled.
- `BillingModels.IntField`: accepts only a JSON integer. Pydantic's lax mode on an `int` field also takes a float with no fraction (`32000.0`), an integer string (`"32000"`) and a boolean. A tier such as `{min_tokens: 32000.0}` therefore aborts the model's load, where the source registers it.
- `BillingModels.OptIntField`: accepts only a JSON integer or null, and misses the same lax coercions as `IntField`.
- `BillingModels.RealField`: accepts only a JSON integer or float. Pydantic also takes a numeric string (`"2.5"`) and a boolean. An entry with such a price is skipped by the model and registered by the source.
- `BillingModels.ModelPricingFromFields`: validates with the strict field kinds above. An entry such as `free_input_tokens: "1000"`, which pydantic coerces, is skipped by the model and registered by the source. The same holds for `PriceTierFromJson` and `ComplexPriceTierFromJson`, whose failures abort the load.
- `DeviceRegistry.DeviceManager.GetDevice`, `AvailableDevices`, `AcquireDevice` and `ReleaseDevice`: the source hands out its own `DeviceInfo` objects and changes `state` and `current_task_id` on them in place. A `DeviceInfo` a caller holds therefore turns BUSY or ONLINE under it. The model returns value copies, so that aliasing is not captured; only the registry's own entries change.
- `Strings.ParseInt`: accepts an optional sign and ASCII digits inside whitespace. Python's `int()` also accepts `_` between digits and non-ASCII decimal digits, which the model rejects.
- `export_report` (phone_agent/billing/manager.py:239-244) is not modelled: it is JSON serialisation through a library.
- `register_pricing_from_dict` is not modelled separately: it is `ModelPricing(**config)`, which the loader's entry conversion models.
- The installed-app cache of the device manager is not modelled: `get_installed_apps`, `_fetch_installed_apps`, `_get_app_name` and `_save_apps_cache` are file- and clock-based. `find_app_by_name` is modelled over the app list it is given.
- `AgentCore.ModelClient`: an answer depends only on the request's position and the conversation. The screenshot sent with each request is not modelled. The Anthropic client's in-place rewrite of the caller's last user message is proved in `AnthropicChat.AnthropicClient.Request` but not carried into the agent's history.
- Pause, cancel, step callbacks and task-plan tracking are not modelled. The terminal UI calls them, but the agent does not define them.
- The settings screen's widgets, notifications and `_save_all` sequencing are not modelled. `_load_selected_profile`, `_delete_selected_profile` (a stub) and `_clear_profile_form` only move values between widgets and the profile store.
- The global `Settings` (pydantic settings read from the environment) and the prompt templates module are not modelled: they hold constant defaults and text.
- OCR: decoding the PNG and tesseract itself are parameters: the decoder, the probe and the OCR of a crop.

## Findings

| source | as written | input that shows it | evidently intended | confidence | as-written member | corrected member |
|---|---|---|---|---|---|---|
| phone_agent/prompts/manager.py:214-219 | `list_apps` builds `set(self._app_prompts.values())` over pydantic models that are not frozen, so they are unhashable and the call raises `TypeError` | one valid app file, e.g. name "Taobao", package "com.taobao.taobao" | one name per distinct registered app | high, not executed | PromptAssembly.ListAppsAsWritten | PromptAssembly.ListedApps |
| phone_agent/tui/screens/settings.py:183 | the protocol selector offers "openai", "anthropic", "gemini" | a profile saved with protocol "gemini" | offer "google", the protocol that profile validation (phone_agent/config/profile.py:14) and the client factory accept | high, not executed | SettingsScreen.GeminiOptionNeverLoads | SettingsScreen.OfferedProtocolsLoad |
| phone_agent/tui/screens/settings.py:327 | the selected name is the item id with every "profile-" removed | the profile "work-profile-2", listed as "profile-work-profile-2", selects "work-2" | remove only the leading "profile-" | high, not executed | SettingsScreen.SelectionLosesInnerPrefix | SettingsScreen.SelectionRoundTrip |
